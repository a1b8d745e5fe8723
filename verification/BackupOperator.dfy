/** The tool itself: one object per manifest path, whose methods query the server,
  * send commands and rewrite the manifest file, one interaction after the other. */
module BackupOperator {
  import opened Common
  import opened BackupProtocol
  import ViewOrder

  class Operator {
    /** What the manifest file holds. */
    var file: Option<Manifest>
    /** Every interaction so far. */
    var trace: seq<Event>

    function View(): World
      reads this
    {
      World(file, trace)
    }

    constructor ()
      ensures View() == BLANK
    {
      file, trace := None, [];
    }

    method Note(e: Event)
      modifies this
      ensures View() == BackupProtocol.Note(old(View()), e)
    {
      trace := trace + [e];
    }

    /** Replaces the manifest file; the call goes on only if `stored`. */
    method Write(env: Env, m: Manifest) returns (stored: bool)
      modifies this
      ensures View() == BackupProtocol.Write(old(View()), env, m)
      ensures stored == (Now(old(View()), env).written == Stored)
    {
      var written := Now(View(), env).written;
      if written == NotStored {
        Note(WriteFailed);
      } else {
        file := Some(m);
        Note(Wrote(m));
      }
      stored := written == Stored;
    }

    method Save(env: Env, m: Manifest) returns (outcome: Outcome)
      modifies this
      ensures Step(View(), outcome) == BackupProtocol.Save(old(View()), env, m)
    {
      var stored := Write(env, m);
      outcome := if stored then Returned(m) else Raised;
    }

    method AskJob(env: Env, id: nat) returns (job: Reply<Option<JobStatus>>)
      modifies this
      ensures job == Now(old(View()), env).job
      ensures View() == BackupProtocol.Note(old(View()), JobAsked(id, job))
    {
      job := Now(View(), env).job;
      Note(JobAsked(id, job));
    }

    method AskParts(env: Env, database: nat) returns (parts: Reply<nat>)
      modifies this
      ensures parts == Now(old(View()), env).parts
      ensures View() == BackupProtocol.Note(old(View()), PartsAsked(database, parts))
    {
      parts := Now(View(), env).parts;
      Note(PartsAsked(database, parts));
    }

    method StableScan(env: Env, database: nat, network: nat) returns (actual: Option<Snapshot>)
      modifies this
      ensures (View(), actual) == BackupProtocol.StableScan(old(View()), env, database, network)
    {
      var before := AskParts(env, database);
      if before.Failed? {
        return None;
      }
      var scan := Now(View(), env).scan;
      Note(Scanned(database, scan));
      if scan.Failed? {
        return None;
      }
      var after := AskParts(env, database);
      actual := if after == before then Some(SnapshotOf(scan.value, network)) else None;
    }

    method FreezeTables(env: Env, database: nat, expected: seq<Obj>) returns (frozen: bool)
      modifies this
      ensures (View(), frozen) == BackupProtocol.FreezeTables(old(View()), env, database, expected, 0)
    {
      var i := 0;
      while i < |expected|
        invariant 0 <= i <= |expected|
        invariant BackupProtocol.FreezeTables(View(), env, database, expected, i)
               == BackupProtocol.FreezeTables(old(View()), env, database, expected, 0)
      {
        if Physical(expected[i]) {
          var rows := Now(View(), env).rows;
          Note(Counted(database, expected[i].name, rows));
          if rows != Got(0) {
            return false;
          }
          var sent := Now(View(), env).sent;
          Note(MergesStopped(database, expected[i].name, sent));
          if sent != Accepted {
            return false;
          }
        }
        i := i + 1;
      }
      frozen := true;
    }

    /** The views in the given order, each dropped first where a materialized one is there. */
    method RebuildViews(env: Env, database: nat, restored: seq<Obj>, expected: seq<Obj>, order: seq<nat>)
      returns (rebuilt: bool)
      modifies this
      ensures (View(), rebuilt)
           == BackupProtocol.RebuildViews(old(View()), env, database, restored, expected, order, 0)
    {
      var i := 0;
      while i < |order|
        invariant 0 <= i <= |order|
        invariant BackupProtocol.RebuildViews(View(), env, database, restored, expected, order, i)
               == BackupProtocol.RebuildViews(old(View()), env, database, restored, expected, order, 0)
      {
        if Materialized(expected, order[i]) && Names(restored, order[i]) {
          var dropped := Now(View(), env).sent;
          Note(ViewDropped(database, order[i], dropped));
          if dropped != Accepted {
            return false;
          }
        }
        var sent := Now(View(), env).sent;
        Note(ViewRebuilt(database, order[i], sent));
        if sent != Accepted {
          return false;
        }
        i := i + 1;
      }
      rebuilt := true;
    }

    method StartMerges(env: Env, database: nat, objects: seq<Obj>) returns (started: bool)
      modifies this
      ensures (View(), started) == BackupProtocol.StartMerges(old(View()), env, database, objects, 0)
    {
      var i := 0;
      while i < |objects|
        invariant 0 <= i <= |objects|
        invariant BackupProtocol.StartMerges(View(), env, database, objects, i)
               == BackupProtocol.StartMerges(old(View()), env, database, objects, 0)
      {
        if objects[i].data.Some? {
          var sent := Now(View(), env).sent;
          Note(MergesStarted(database, objects[i].name, sent));
          if sent != Accepted {
            return false;
          }
        }
        i := i + 1;
      }
      started := true;
    }

    method PrepareRestoreData(env: Env, m: Manifest) returns (ready: bool)
      modifies this
      ensures (View(), ready) == BackupProtocol.PrepareRestoreData(old(View()), env, m)
    {
      var first := Now(View(), env).schema;
      Note(SchemaRead(m.job.database, first));
      var expected := Schema(m.job.source.objects);
      if first.Failed? || !NoStrangers(first.value, expected) {
        return false;
      }
      DependenciesClosed(expected);
      var order, _ := ViewOrder.OrderViews(DependenciesOf(expected));
      if order.Err? || !AllFit(expected, first.value) {
        return false;
      }
      var frozen := FreezeTables(env, m.job.database, expected);
      if !frozen {
        return false;
      }
      var rebuilt := RebuildViews(env, m.job.database, first.value, expected, order.value);
      if !rebuilt {
        return false;
      }
      var last := Now(View(), env).schema;
      Note(SchemaRead(m.job.database, last));
      ready := last == Got(expected);
    }

    method Send(env: Env, url: nat, m: Manifest) returns (outcome: Outcome)
      modifies this
      ensures Step(View(), outcome) == BackupProtocol.Send(old(View()), env, url, m)
      decreases Rank(View()), 1
    {
      var sent := Now(View(), env).sent;
      Note(Issued(CommandOf(m), sent));
      match sent {
        case Accepted => outcome := Refresh(env, url);
        case Unreachable => outcome := Returned(m);
        case Killed => outcome := Raised;
        case Refused =>
          var job := AskJob(env, ActiveId(m));
          if job.Failed? {
            outcome := Raised;
          } else if job.value.None? {
            outcome := Save(env, RejectedFor(m, ServerRejected));
          } else {
            outcome := Refresh(env, url);
          }
      }
    }

    method Confirm(env: Env, m: Manifest) returns (outcome: Outcome)
      modifies this
      ensures Step(View(), outcome) == BackupProtocol.Confirm(old(View()), env, m)
    {
      var actual := StableScan(env, m.job.database, m.job.network);
      if actual.None? {
        return Raised;
      }
      var changed := false;
      if m.job.BackupOf? {
        var parts := AskParts(env, m.job.database);
        if parts.Failed? {
          return Raised;
        }
        changed := parts.value != m.job.parts;
      }
      outcome := Save(env, Judge(m, actual.value, changed));
    }

    method Refresh(env: Env, url: nat) returns (outcome: Outcome)
      modifies this
      ensures Step(View(), outcome) == BackupProtocol.Refresh(old(View()), env, url)
      decreases Rank(View()), 0
    {
      var loaded := Load(file);
      if loaded.None? || loaded.value.job.endpoint != url {
        return Raised;
      }
      var m := loaded.value;
      if Final(m) {
        return Returned(m);
      }
      var job := AskJob(env, ActiveId(m));
      if job.Failed? || job.value.None? {
        return Raised;
      }
      m := m.(progress := m.progress.(serverStatus := job.value));
      match job.value.value {
        case BackupFailed => outcome := Save(env, RejectedFor(m, ServerOperationFailed));
        case RestoreFailed => outcome := Save(env, RejectedFor(m, ServerOperationFailed));
        case Unfinished(_) => outcome := Save(env, WithStatus(m, Running));
        case _ =>
          if m.job.RestoreOf? && m.progress.phase == Structure {
            var ready := PrepareRestoreData(env, m);
            if !ready {
              return Raised;
            }
            var stored := Write(env, IntoData(m));
            if !stored {
              return Raised;
            }
            outcome := Send(env, url, IntoData(m));
          } else {
            outcome := Confirm(env, m);
          }
      }
    }

    method StartBackup(env: Env, url: nat, m: Manifest) returns (outcome: Outcome)
      requires m.job.BackupOf?
      modifies this
      ensures Step(View(), outcome) == BackupProtocol.StartBackup(old(View()), env, url, m)
    {
      var job := AskJob(env, m.job.id);
      if job.Failed? {
        return Raised;
      }
      if job.value.None? {
        if m.progress.status != Prepared {
          return Raised;
        }
        var parts := AskParts(env, m.job.database);
        if parts.Failed? {
          return Raised;
        }
        if parts.value != m.job.parts {
          outcome := Save(env, RejectedFor(m, SourceChanged));
          return;
        }
        var stored := Write(env, WithStatus(m, Dispatched));
        if !stored {
          return Raised;
        }
        outcome := Send(env, url, WithStatus(m, Dispatched));
        return;
      }
      outcome := Refresh(env, url);
    }

    method Backup(env: Env, c: BackupCall) returns (outcome: Outcome)
      modifies this
      ensures Step(View(), outcome) == BackupProtocol.Backup(old(View()), env, c)
    {
      if !c.paused {
        return Raised;
      }
      if file.Some? {
        var m := file.value;
        if !c.resume || !Acceptable(m) || !m.job.BackupOf? || m.job.database != c.database
          || m.job.network != c.network || m.job.endpoint != c.url {
          return Raised;
        }
        if Final(m) {
          return Returned(m);
        }
        outcome := StartBackup(env, c.url, m);
        return;
      }
      var disk := Now(View(), env).disk;
      Note(DiskAsked(disk));
      if disk != Got(true) {
        return Raised;
      }
      var guard := AskParts(env, c.database);
      if guard.Failed? {
        return Raised;
      }
      var source := StableScan(env, c.database, c.network);
      if source.None? {
        return Raised;
      }
      var again := AskParts(env, c.database);
      if again != guard {
        return Raised;
      }
      var m := NewBackup(c, source.value, guard.value);
      var stored := Write(env, m);
      if !stored {
        return Raised;
      }
      outcome := StartBackup(env, c.url, m);
    }

    method Restore(env: Env, c: RestoreCall) returns (outcome: Outcome)
      modifies this
      ensures Step(View(), outcome) == BackupProtocol.Restore(old(View()), env, c)
    {
      var loaded := Load(c.receipt);
      if loaded.None? || !loaded.value.job.BackupOf? || loaded.value.progress.status != Verified {
        return Raised;
      }
      var b := loaded.value;
      if file.Some? {
        var m := file.value;
        if !c.resume || !Acceptable(m) || !m.job.RestoreOf? || m.job.database != c.target
          || m.job.endpoint != c.url || m.job.receipt != b {
          return Raised;
        }
        outcome := Refresh(env, c.url);
        return;
      }
      var server := Now(View(), env).server;
      Note(ServerAsked(server));
      if server != Got(b.job.source.server) {
        return Raised;
      }
      var taken := Now(View(), env).target;
      Note(TargetAsked(c.target, taken));
      if taken != Got(false) {
        return Raised;
      }
      var m := NewRestore(c, b);
      var stored := Write(env, m);
      if !stored {
        return Raised;
      }
      outcome := Send(env, c.url, m);
    }

    method Release(env: Env, url: nat) returns (outcome: Outcome)
      modifies this
      ensures Step(View(), outcome) == BackupProtocol.Release(old(View()), env, url)
    {
      var loaded := Load(file);
      if loaded.None? || !loaded.value.job.RestoreOf? || loaded.value.progress.status != Verified
        || loaded.value.job.endpoint != url {
        return Raised;
      }
      var m := loaded.value;
      if m.progress.merges == Resumed {
        return Returned(m);
      }
      var actual := StableScan(env, m.job.database, m.job.network);
      if actual != Some(m.job.source) {
        return Raised;
      }
      var started := StartMerges(env, m.job.database, m.job.source.objects);
      if !started {
        return Raised;
      }
      outcome := Save(env, m.(progress := m.progress.(merges := Resumed)));
    }

    /** One invocation of the tool. */
    method Perform(env: Env, op: Op) returns (outcome: Outcome)
      modifies this
      ensures Step(View(), outcome) == Apply(old(View()), env, op)
    {
      match op {
        case DoBackup(c) => outcome := Backup(env, c);
        case DoRestore(c) => outcome := Restore(env, c);
        case DoRefresh(url) => outcome := Refresh(env, url);
        case DoRelease(url) => outcome := Release(env, url);
      }
    }

    /** A whole history of invocations: what is proved of runs is proved of the object. */
    method Drive(env: Env, ops: seq<Op>)
      modifies this
      ensures View() == Run(old(View()), env, ops)
    {
      for k := 0 to |ops|
        invariant Run(View(), env, ops[k..]) == Run(old(View()), env, ops)
      {
        assert ops[k..][0] == ops[k] && ops[k..][1..] == ops[k + 1..];
        var outcome := Perform(env, ops[k]);
      }
    }
  }
}
