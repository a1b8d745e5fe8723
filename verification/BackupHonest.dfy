/** With a server that does its work and nobody writing meanwhile, one call makes a
  * verified backup, one call makes a verified restore of it, and the two manifests
  * certify each other. */
module BackupHonest {
  import opened Common
  import opened BackupProtocol
  import ViewOrder

  /** Every query is answered from the same contents, every command and write
    * succeeds; before interaction `since` the server knows no job. */
  ghost predicate Honest(env: Env, since: nat, scan: Scan, parts: nat, finished: JobStatus) {
    forall n: nat {:trigger env(n)} ::
      env(n) == Answer(Got(true), Got(if n < since then None else Some(finished)), Got(parts), Got(scan),
                       Got(Schema(scan.objects)), Got(scan.server), Got(false), Got(0), Accepted, Stored)
  }

  predicate NamesDistinct(objects: seq<Obj>) {
    forall i, j :: 0 <= i < j < |objects| ==> objects[i].name != objects[j].name
  }

  /** What a database has by itself: different names, and no view that needs itself. */
  ghost predicate Restorable(objects: seq<Obj>) {
    NamesDistinct(objects) && !ViewOrder.Cyclic(DependenciesOf(Schema(objects)))
  }

  lemma ScanSucceeds(w: World, env: Env, since: nat, scan: Scan, parts: nat, finished: JobStatus, database: nat,
                     network: nat)
    requires Honest(env, since, scan, parts, finished)
    ensures var (v, actual) := StableScan(w, env, database, network);
            v.file == w.file && actual == Some(SnapshotOf(scan, network)) && |v.trace| == |w.trace| + 3
  {
  }

  lemma ConfirmVerifies(w: World, env: Env, since: nat, scan: Scan, parts: nat, finished: JobStatus, m: Manifest)
    requires Honest(env, since, scan, parts, finished)
    requires m.job.source == SnapshotOf(scan, m.job.network)
    requires m.job.BackupOf? ==> m.job.parts == parts
    ensures var s := Confirm(w, env, m);
            && s.outcome == Returned(Judge(m, m.job.source, false)) && s.world.file == Some(s.outcome.manifest)
  {
    ScanSucceeds(w, env, since, scan, parts, finished, m.job.database, m.job.network);
    var w1 := StableScan(w, env, m.job.database, m.job.network).0;
    assert Now(w1, env).written == Stored;
    if m.job.BackupOf? {
      var w2 := Note(w1, PartsAsked(m.job.database, Now(w1, env).parts));
      assert Now(w2, env).written == Stored;
    }
  }

  /** A finished job whose contents equal the source gives a verified manifest. */
  lemma RefreshVerifies(w: World, env: Env, since: nat, scan: Scan, parts: nat, finished: JobStatus, m: Manifest)
    requires Honest(env, since, scan, parts, finished) && (finished == BackupCreated || finished == Restored)
    requires w.file == Some(m) && Acceptable(m) && !Final(m) && |w.trace| >= since
    requires m.job.source == SnapshotOf(scan, m.job.network)
    requires m.job.BackupOf? ==> m.job.parts == parts
    requires m.job.RestoreOf? ==> m.progress.phase == Data
    ensures var s := Refresh(w, env, m.job.endpoint);
            && s.outcome.Returned? && s.world.file == Some(s.outcome.manifest)
            && s.outcome.manifest.job == m.job
            && s.outcome.manifest.progress.status == Verified
            && s.outcome.manifest.progress.verifiedSha == Some(scan.objects)
  {
    var job := JobAsked(ActiveId(m), Now(w, env).job);
    var n := m.(progress := m.progress.(serverStatus := Some(finished)));
    ConfirmVerifies(Note(w, job), env, since, scan, parts, finished, n);
  }

  lemma BackupCompletes(env: Env, scan: Scan, parts: nat, c: BackupCall)
    requires Honest(env, 11, scan, parts, BackupCreated) && c.paused
    ensures var s := Backup(BLANK, env, c);
            && s.outcome.Returned? && s.world.file == Some(s.outcome.manifest)
            && s.outcome.manifest.job == NewBackup(c, SnapshotOf(scan, c.network), parts).job
            && s.outcome.manifest.progress.status == Verified
            && s.outcome.manifest.progress.verifiedSha == Some(scan.objects)
  {
    var w1 := Note(BLANK, DiskAsked(Now(BLANK, env).disk));
    var w2 := Note(w1, PartsAsked(c.database, Now(w1, env).parts));
    ScanSucceeds(w2, env, 11, scan, parts, BackupCreated, c.database, c.network);
    var w3 := StableScan(w2, env, c.database, c.network).0;
    var w4 := Note(w3, PartsAsked(c.database, Now(w3, env).parts));
    var m := NewBackup(c, SnapshotOf(scan, c.network), parts);
    StartVerifies(Write(w4, env, m), env, scan, parts, m);
  }

  lemma StartVerifies(w: World, env: Env, scan: Scan, parts: nat, m: Manifest)
    requires Honest(env, 11, scan, parts, BackupCreated)
    requires |w.trace| == 7 && w.file == Some(m)
    requires m.job.BackupOf? && Acceptable(m) && m.progress == NEW_PROGRESS
    requires m.job.source == SnapshotOf(scan, m.job.network) && m.job.parts == parts
    ensures var s := StartBackup(w, env, m.job.endpoint, m);
            && s.outcome.Returned? && s.world.file == Some(s.outcome.manifest)
            && s.outcome.manifest.job == m.job
            && s.outcome.manifest.progress.status == Verified
            && s.outcome.manifest.progress.verifiedSha == Some(scan.objects)
  {
    var w1 := Note(w, JobAsked(m.job.id, Now(w, env).job));
    var w2 := Note(w1, PartsAsked(m.job.database, Now(w1, env).parts));
    var d := WithStatus(m, Dispatched);
    var w3 := Write(w2, env, d);
    var w4 := Note(w3, Issued(CommandOf(d), Now(w3, env).sent));
    RefreshVerifies(w4, env, 11, scan, parts, BackupCreated, d);
  }

  // ----- the restore -----

  lemma {:induction false} LookupFinds(objects: seq<Obj>, i: nat)
    requires i < |objects| && NamesDistinct(objects)
    ensures Lookup(objects, objects[i].name) == Some(objects[i])
  {
    var n := |objects| - 1;
    if i < n {
      assert objects[..n][i] == objects[i];
      LookupFinds(objects[..n], i);
    }
  }

  lemma SchemaFits(objects: seq<Obj>)
    requires NamesDistinct(objects)
    ensures NoStrangers(Schema(objects), Schema(objects)) && AllFit(Schema(objects), Schema(objects))
  {
    var s := Schema(objects);
    forall i | 0 <= i < |s|
      ensures Names(s, s[i].name)
    {
    }
    forall i | 0 <= i < |s|
      ensures TableFits(s[i], Lookup(s, s[i].name))
    {
      LookupFinds(s, i);
    }
  }

  lemma {:induction false} FreezeSucceeds(w: World, env: Env, since: nat, scan: Scan, parts: nat, finished: JobStatus,
                                          database: nat, expected: seq<Obj>, i: nat)
    requires Honest(env, since, scan, parts, finished) && i <= |expected|
    ensures var (v, frozen) := FreezeTables(w, env, database, expected, i);
            frozen && v.file == w.file && |v.trace| >= |w.trace|
    decreases |expected| - i
  {
    if i < |expected| {
      if !Physical(expected[i]) {
        FreezeSucceeds(w, env, since, scan, parts, finished, database, expected, i + 1);
      } else {
        var w1 := Note(w, Counted(database, expected[i].name, Now(w, env).rows));
        var w2 := Note(w1, MergesStopped(database, expected[i].name, Now(w1, env).sent));
        FreezeSucceeds(w2, env, since, scan, parts, finished, database, expected, i + 1);
      }
    }
  }

  lemma {:induction false} RebuildSucceeds(w: World, env: Env, since: nat, scan: Scan, parts: nat, finished: JobStatus,
                                           database: nat, restored: seq<Obj>, expected: seq<Obj>, order: seq<nat>,
                                           i: nat)
    requires Honest(env, since, scan, parts, finished) && i <= |order|
    ensures var (v, rebuilt) := RebuildViews(w, env, database, restored, expected, order, i);
            rebuilt && v.file == w.file && |v.trace| >= |w.trace|
    decreases |order| - i
  {
    if i < |order| {
      var w1 := if Materialized(expected, order[i]) && Names(restored, order[i])
                then Note(w, ViewDropped(database, order[i], Now(w, env).sent)) else w;
      var w2 := Note(w1, ViewRebuilt(database, order[i], Now(w1, env).sent));
      RebuildSucceeds(w2, env, since, scan, parts, finished, database, restored, expected, order, i + 1);
    }
  }

  lemma PrepareSucceeds(w: World, env: Env, since: nat, scan: Scan, parts: nat, finished: JobStatus, m: Manifest)
    requires Honest(env, since, scan, parts, finished)
    requires m.job.source.objects == scan.objects && Restorable(scan.objects)
    ensures var (v, ready) := PrepareRestoreData(w, env, m);
            ready && v.file == w.file && |v.trace| >= |w.trace|
  {
    var expected := Schema(scan.objects);
    SchemaFits(scan.objects);
    assert Now(w, env).schema == Got(expected);
    var w1 := Note(w, SchemaRead(m.job.database, Now(w, env).schema));
    FreezeSucceeds(w1, env, since, scan, parts, finished, m.job.database, expected, 0);
    var w2 := FreezeTables(w1, env, m.job.database, expected, 0).0;
    DependenciesClosed(expected);
    var level := ViewOrder.RoundsRight(DependenciesOf(expected));
    var order := ViewOrder.Rounds(DependenciesOf(expected)).value;
    RebuildSucceeds(w2, env, since, scan, parts, finished, m.job.database, expected, expected, order, 0);
    var w3 := RebuildViews(w2, env, m.job.database, expected, expected, order, 0).0;
    assert Now(w3, env).schema == Got(expected);
  }

  lemma DataVerifies(w: World, env: Env, scan: Scan, parts: nat, d: Manifest)
    requires Honest(env, 0, scan, parts, Restored)
    requires w.file == Some(d) && Acceptable(d) && d.job.RestoreOf?
    requires d.progress.phase == Data && d.progress.status == Dispatched
    requires d.job.source == SnapshotOf(scan, d.job.network)
    ensures var s := Send(w, env, d.job.endpoint, d);
            && s.outcome.Returned? && s.world.file == Some(s.outcome.manifest)
            && s.outcome.manifest.job == d.job && s.outcome.manifest.progress.status == Verified
            && s.outcome.manifest.progress.verifiedSha == Some(scan.objects)
  {
    RefreshVerifies(Note(w, Issued(CommandOf(d), Now(w, env).sent)), env, 0, scan, parts, Restored, d);
  }

  lemma StructureLeadsToData(w: World, env: Env, scan: Scan, parts: nat, m: Manifest)
    requires Honest(env, 0, scan, parts, Restored) && Restorable(scan.objects)
    requires w.file == Some(m) && Acceptable(m) && m.job.RestoreOf?
    requires m.progress.phase == Structure && m.progress.status == Dispatched
    requires m.job.source == SnapshotOf(scan, m.job.network)
    ensures var s := Refresh(w, env, m.job.endpoint);
            && s.outcome.Returned? && s.world.file == Some(s.outcome.manifest)
            && s.outcome.manifest.job == m.job && s.outcome.manifest.progress.status == Verified
            && s.outcome.manifest.progress.verifiedSha == Some(scan.objects)
  {
    var w1 := Note(w, JobAsked(m.job.id, Now(w, env).job));
    var n := m.(progress := m.progress.(serverStatus := Some(Restored)));
    PrepareSucceeds(w1, env, 0, scan, parts, Restored, n);
    var w2 := PrepareRestoreData(w1, env, n).0;
    DataVerifies(Write(w2, env, IntoData(n)), env, scan, parts, IntoData(n));
  }

  /** From a verified backup manifest to a verified restore whose receipts agree. */
  lemma RestoreCompletes(env: Env, scan: Scan, parts: nat, c: RestoreCall)
    requires Honest(env, 0, scan, parts, Restored) && Restorable(scan.objects)
    requires c.receipt.Some? && Acceptable(c.receipt.value) && c.receipt.value.job.BackupOf?
    requires c.receipt.value.progress.status == Verified
    requires c.receipt.value.job.source == SnapshotOf(scan, c.receipt.value.job.network)
    ensures var s := Restore(BLANK, env, c);
            && s.outcome.Returned? && s.world.file == Some(s.outcome.manifest)
            && s.outcome.manifest.progress.status == Verified
            && ReceiptsAgree(c.receipt, s.world.file)
  {
    var b := c.receipt.value;
    var w1 := Note(BLANK, ServerAsked(Now(BLANK, env).server));
    var w2 := Note(w1, TargetAsked(c.target, Now(w1, env).target));
    var m := NewRestore(c, b);
    var w3 := Write(w2, env, m);
    var w4 := Note(w3, Issued(CommandOf(m), Now(w3, env).sent));
    StructureLeadsToData(w4, env, scan, parts, m);
  }
}
