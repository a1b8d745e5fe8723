/** What holds after any sequence of invocations of the backup tool, whatever
  * the server, the network, the disk and the process did. */
module BackupSafety {
  import opened Common
  import opened BackupProtocol
  import ViewOrder

  // ----- vocabulary -----

  /** The two manifests differ at most in progress. */
  predicate SameJob(a: Manifest, b: Manifest) {
    a.job == b.job
  }

  predicate Quiet(e: Event) {
    !e.Issued? && !e.Wrote?
  }

  /** Which of the three kinds of command it is. */
  function Kind(c: Command): nat {
    match c
    case BackupCommand(_, _, _) => 0
    case RestoreCommand(_, _, _, _, structureOnly) => if structureOnly then 1 else 2
  }

  /** The server reported the job as finished. */
  predicate Finished(e: Event, id: nat) {
    e == JobAsked(id, Got(Some(BackupCreated))) || e == JobAsked(id, Got(Some(Restored)))
  }

  /** Between a and b the table was counted empty and its merges were stopped. */
  ghost predicate Frozen(t: seq<Event>, a: nat, b: nat, database: nat, table: nat) {
    exists c: nat :: a < c && c + 1 < b && b <= |t|
      && t[c] == Counted(database, table, Got(0)) && t[c + 1] == MergesStopped(database, table, Accepted)
  }

  ghost predicate AllFrozen(t: seq<Event>, a: nat, b: nat, m: Manifest) {
    forall i {:trigger m.job.source.objects[i]} ::
      0 <= i < |m.job.source.objects| && Physical(m.job.source.objects[i]) ==>
      Frozen(t, a, b, m.job.database, m.job.source.objects[i].name)
  }

  /** The structure restore finished (a), every physical table was then empty with
    * its merges stopped, and the whole schema read last (b) is that of the source. */
  ghost predicate ReadyForData(t: seq<Event>, m: Manifest, a: nat, b: nat) {
    && m.job.RestoreOf?
    && a < b < |t|
    && Finished(t[a], m.job.id)
    && AllFrozen(t, a, b, m)
    && t[b] == SchemaRead(m.job.database, Got(Schema(m.job.source.objects)))
  }

  /** The command at k was sent right after the manifest asking for it was stored
    * as dispatched; a data restore only into the checked, empty structure. */
  ghost predicate IssueJustified(t: seq<Event>, k: nat, m: Manifest)
    requires k < |t| && t[k].Issued?
  {
    && 0 < k && t[k - 1].Wrote?
    && SameJob(t[k - 1].manifest, m)
    && t[k - 1].manifest.progress.status == Dispatched
    && t[k].command == CommandOf(t[k - 1].manifest)
    && (Kind(t[k].command) == 2 ==> exists a: nat, b: nat :: b < k && ReadyForData(t, m, a, b))
  }

  /** The active job was reported finished (a) and a later scan (b + 1), with the
    * same parts before and after it, found exactly the recorded source. */
  ghost predicate Confirmed(t: seq<Event>, m: Manifest, a: nat, b: nat) {
    && a < b && b + 2 < |t|
    && Finished(t[a], ActiveId(m))
    && t[b].PartsAsked? && t[b].parts.Got? && t[b].database == m.job.database && t[b + 2] == t[b]
    && t[b + 1].Scanned? && t[b + 1].database == m.job.database && t[b + 1].scan.Got?
    && SnapshotOf(t[b + 1].scan.value, m.job.network) == m.job.source
    && (m.job.BackupOf? ==> b + 3 < |t| && t[b + 3] == PartsAsked(m.job.database, Got(m.job.parts)))
  }

  /** What happened at position a gives the recorded reason to reject. */
  ghost predicate Refuted(t: seq<Event>, m: Manifest, a: nat) {
    && a < |t|
    && match m.progress.reason
       case None => false
       case Some(ServerOperationFailed) =>
         t[a] == JobAsked(ActiveId(m), Got(Some(BackupFailed)))
           || t[a] == JobAsked(ActiveId(m), Got(Some(RestoreFailed)))
       case Some(ServerRejected) =>
         a + 1 < |t| && t[a] == Issued(CommandOf(m), Refused) && t[a + 1] == JobAsked(ActiveId(m), Got(None))
       case Some(SourceChanged) => m.job.BackupOf? && (OtherParts(t[a], m) || OtherContents(t[a], m))
       case Some(RestoredContentDiffers) => m.job.RestoreOf? && OtherContents(t[a], m)
  }

  predicate OtherParts(e: Event, m: Manifest) {
    m.job.BackupOf? && e.PartsAsked? && e.database == m.job.database && e.parts.Got? && e.parts.value != m.job.parts
  }

  predicate OtherContents(e: Event, m: Manifest) {
    && e.Scanned? && e.database == m.job.database && e.scan.Got?
    && SnapshotOf(e.scan.value, m.job.network) != m.job.source
  }

  /** The verdict of the manifest, if there is one, rests on what was seen. */
  ghost predicate VerdictSeen(t: seq<Event>, m: Manifest) {
    && (m.progress.status == Verified ==>
          && (m.job.RestoreOf? ==> m.progress.phase == Data)
          && exists a: nat, b: nat :: Confirmed(t, m, a, b))
    && (m.progress.status == Rejected ==> exists a: nat :: Refuted(t, m, a))
  }

  predicate Unissued(t: seq<Event>, kind: nat) {
    forall k :: 0 <= k < |t| && t[k].Issued? ==> Kind(t[k].command) != kind
  }

  predicate Untold(t: seq<Event>) {
    forall k :: 0 <= k < |t| ==> Quiet(t[k])
  }

  predicate AtMostOnce(t: seq<Event>) {
    forall j, k :: 0 <= j < k < |t| && t[j].Issued? && t[k].Issued? ==> Kind(t[j].command) != Kind(t[k].command)
  }

  ghost predicate AllJustified(t: seq<Event>, m: Manifest) {
    forall k {:trigger t[k]} :: 0 <= k < |t| && t[k].Issued? ==> IssueJustified(t, k, m)
  }

  /** A restore manifest copies a verified backup manifest that `load` accepts. */
  predicate Bound(m: Manifest) {
    m.job.RestoreOf? ==>
      && m.job.receipt.job.BackupOf? && Acceptable(m.job.receipt) && m.job.receipt.progress.status == Verified
      && m.job.source == m.job.receipt.job.source && m.job.network == m.job.receipt.job.network
      && m.job.archive == m.job.receipt.job.archive
      && m.job.backupId == m.job.receipt.job.id && m.job.backupDatabase == m.job.receipt.job.database
  }

  ghost predicate FileInv(m: Manifest, t: seq<Event>) {
    && Acceptable(m)
    && Bound(m)
    && AllJustified(t, m)
    && AtMostOnce(t)
    && (m.job.BackupOf? && m.progress.status == Prepared ==> Unissued(t, 0))
    && (m.job.RestoreOf? && m.progress.phase == Structure ==> Unissued(t, 2) && m.progress.merges == Untouched)
    && VerdictSeen(t, m)
  }

  ghost predicate Inv(w: World) {
    && (w.file.None? ==> Untold(w.trace))
    && (w.file.Some? ==> FileInv(w.file.value, w.trace))
  }

  // ----- the trace only grows -----

  ghost predicate Extends(t: seq<Event>, u: seq<Event>) {
    |t| <= |u| && forall k {:trigger u[k]} :: 0 <= k < |t| ==> u[k] == t[k]
  }

  lemma FrozenExtends(t: seq<Event>, u: seq<Event>, a: nat, b: nat, database: nat, table: nat)
    requires Extends(t, u) && Frozen(t, a, b, database, table)
    ensures Frozen(u, a, b, database, table)
  {
    var c: nat :| a < c && c + 1 < b && b <= |t|
      && t[c] == Counted(database, table, Got(0)) && t[c + 1] == MergesStopped(database, table, Accepted);
    assert u[c] == t[c] && u[c + 1] == t[c + 1];
  }

  lemma ReadyExtends(t: seq<Event>, u: seq<Event>, m: Manifest, n: Manifest, a: nat, b: nat)
    requires Extends(t, u) && ReadyForData(t, m, a, b) && SameJob(m, n)
    ensures ReadyForData(u, n, a, b)
  {
    assert u[a] == t[a] && u[b] == t[b];
    forall i | 0 <= i < |n.job.source.objects| && Physical(n.job.source.objects[i])
      ensures Frozen(u, a, b, n.job.database, n.job.source.objects[i].name)
    {
      assert m.job.source.objects[i] == n.job.source.objects[i];
      FrozenExtends(t, u, a, b, n.job.database, n.job.source.objects[i].name);
    }
  }

  lemma JustifiedExtends(t: seq<Event>, u: seq<Event>, k: nat, m: Manifest, n: Manifest)
    requires Extends(t, u) && SameJob(m, n)
    requires k < |t| && t[k].Issued? && IssueJustified(t, k, m)
    ensures u[k] == t[k] && IssueJustified(u, k, n)
  {
    assert u[k] == t[k] && u[k - 1] == t[k - 1];
    if Kind(t[k].command) == 2 {
      var a: nat, b: nat :| b < k && ReadyForData(t, m, a, b);
      ReadyExtends(t, u, m, n, a, b);
    }
  }

  lemma ConfirmedExtends(t: seq<Event>, u: seq<Event>, m: Manifest, a: nat, b: nat)
    requires Extends(t, u) && Confirmed(t, m, a, b)
    ensures Confirmed(u, m, a, b)
  {
    assert u[a] == t[a] && u[b] == t[b] && u[b + 1] == t[b + 1] && u[b + 2] == t[b + 2];
    if m.job.BackupOf? {
      assert u[b + 3] == t[b + 3];
    }
  }

  lemma VerdictExtends(t: seq<Event>, u: seq<Event>, m: Manifest)
    requires Extends(t, u) && VerdictSeen(t, m)
    ensures VerdictSeen(u, m)
  {
    if m.progress.status == Verified {
      var a: nat, b: nat :| Confirmed(t, m, a, b);
      ConfirmedExtends(t, u, m, a, b);
    }
    if m.progress.status == Rejected {
      var a: nat :| Refuted(t, m, a);
      assert u[a] == t[a];
      if m.progress.reason == Some(ServerRejected) {
        assert u[a + 1] == t[a + 1];
      }
      assert Refuted(u, m, a);
    }
  }

  /** Adding anything that is not a command keeps the claims about commands. */
  lemma CommandsKept(t: seq<Event>, e: Event, m: Manifest, n: Manifest)
    requires !e.Issued? && SameJob(m, n) && AllJustified(t, m) && AtMostOnce(t)
    ensures AllJustified(t + [e], n) && AtMostOnce(t + [e])
  {
    var u := t + [e];
    assert Extends(t, u);
    forall k | 0 <= k < |u| && u[k].Issued?
      ensures IssueJustified(u, k, n)
    {
      assert u[k] == t[k];
      JustifiedExtends(t, u, k, m, n);
    }
  }

  // ----- one interaction -----

  lemma Quietly(w: World, e: Event)
    requires Inv(w) && Quiet(e)
    ensures Inv(Note(w, e))
  {
    var t, u := w.trace, w.trace + [e];
    assert Extends(t, u);
    if w.file.Some? {
      var m := w.file.value;
      CommandsKept(t, e, m, m);
      VerdictExtends(t, u, m);
    }
  }

  /** What a rewrite of the manifest must respect. */
  ghost predicate MayBecome(m: Manifest, n: Manifest, t: seq<Event>) {
    && SameJob(m, n) && Acceptable(n)
    && (n.job.BackupOf? && n.progress.status == Prepared ==> m.progress.status == Prepared)
    && (n.job.RestoreOf? && n.progress.phase == Structure ==>
        m.progress.phase == Structure && n.progress.merges == m.progress.merges)
    && VerdictSeen(t, n)
  }

  lemma Rewriting(w: World, env: Env, m: Manifest, n: Manifest)
    requires Inv(w) && w.file == Some(m) && MayBecome(m, n, w.trace)
    ensures Inv(Write(w, env, n))
  {
    if Now(w, env).written == NotStored {
      Quietly(w, WriteFailed);
    } else {
      var t, u := w.trace, w.trace + [Wrote(n)];
      CommandsKept(t, Wrote(n), m, n);
      assert Extends(t, u);
      VerdictExtends(t, u, n);
    }
  }

  /** The first write of a manifest that may not claim anything yet. */
  lemma Creating(w: World, env: Env, n: Manifest)
    requires Inv(w) && w.file.None? && Acceptable(n) && Bound(n)
    requires !Final(n)
    requires n.job.RestoreOf? ==> n.progress.merges == Untouched
    ensures Inv(Write(w, env, n))
    ensures Unissued(Write(w, env, n).trace, 1)
  {
    assert Untold(w.trace);
    var u := Write(w, env, n).trace;
    forall k | 0 <= k < |u|
      ensures !u[k].Issued?
    {
      if k < |w.trace| {
        assert u[k] == w.trace[k];
      }
    }
  }

  /** The moment at which a command may leave. */
  ghost predicate MaySend(w: World, m: Manifest) {
    && Inv(w) && w.file == Some(m)
    && m.progress.status == Dispatched
    && w.trace != [] && w.trace[|w.trace| - 1] == Wrote(m)
    && Unissued(w.trace, Kind(CommandOf(m)))
    && (m.job.RestoreOf? && m.progress.phase == Data ==> exists a, b :: ReadyForData(w.trace, m, a, b))
  }

  lemma Sending(w: World, m: Manifest, sent: Sent)
    requires MaySend(w, m)
    ensures Inv(Note(w, Issued(CommandOf(m), sent)))
  {
    var t, e := w.trace, Issued(CommandOf(m), sent);
    var u := t + [e];
    assert Extends(t, u);
    forall k | 0 <= k < |u| && u[k].Issued?
      ensures IssueJustified(u, k, m)
    {
      if k < |t| {
        assert u[k] == t[k];
        JustifiedExtends(t, u, k, m, m);
      } else {
        assert u[k - 1] == t[k - 1];
        if Kind(e.command) == 2 {
          var a: nat, b: nat :| ReadyForData(t, m, a, b);
          ReadyExtends(t, u, m, m, a, b);
        }
      }
    }
  }

  // ----- what the operations establish before they write -----

  lemma StableScanKeeps(w: World, env: Env, database: nat, network: nat)
    requires Inv(w)
    ensures var (v, actual) := StableScan(w, env, database, network);
            && Inv(v) && v.file == w.file && Extends(w.trace, v.trace)
            && (Untold(w.trace) ==> Untold(v.trace))
            && (actual.Some? ==>
                  && |v.trace| == |w.trace| + 3
                  && var b := |w.trace|;
                  && v.trace[b].PartsAsked? && v.trace[b].parts.Got? && v.trace[b].database == database
                  && v.trace[b + 2] == v.trace[b]
                  && v.trace[b + 1].Scanned? && v.trace[b + 1].database == database && v.trace[b + 1].scan.Got?
                  && actual.value == SnapshotOf(v.trace[b + 1].scan.value, network))
  {
    var before := Now(w, env).parts;
    var w1 := Note(w, PartsAsked(database, before));
    Quietly(w, PartsAsked(database, before));
    if before.Got? {
      var scan := Now(w1, env).scan;
      var w2 := Note(w1, Scanned(database, scan));
      Quietly(w1, Scanned(database, scan));
      if scan.Got? {
        Quietly(w2, PartsAsked(database, Now(w2, env).parts));
      }
    }
  }

  lemma {:induction false} FreezeKeeps(w: World, env: Env, database: nat, expected: seq<Obj>, i: nat)
    requires Inv(w) && i <= |expected|
    ensures var (v, frozen) := FreezeTables(w, env, database, expected, i);
            && Inv(v) && v.file == w.file && Extends(w.trace, v.trace)
            && (frozen ==> forall j, a: nat {:trigger Frozen(v.trace, a, |v.trace|, database, expected[j].name)} ::
                  i <= j < |expected| && Physical(expected[j]) && a < |w.trace| ==>
                    Frozen(v.trace, a, |v.trace|, database, expected[j].name))
    decreases |expected| - i
  {
    if i < |expected| {
      if !Physical(expected[i]) {
        FreezeKeeps(w, env, database, expected, i + 1);
      } else {
        var rows := Now(w, env).rows;
        var w1 := Note(w, Counted(database, expected[i].name, rows));
        Quietly(w, Counted(database, expected[i].name, rows));
        if rows == Got(0) {
          var sent := Now(w1, env).sent;
          var w2 := Note(w1, MergesStopped(database, expected[i].name, sent));
          Quietly(w1, MergesStopped(database, expected[i].name, sent));
          if sent == Accepted {
            FreezeKeeps(w2, env, database, expected, i + 1);
            var v := FreezeTables(w2, env, database, expected, i + 1).0;
            var c := |w.trace|;
            assert w2.trace[c] == Counted(database, expected[i].name, Got(0));
            assert w2.trace[c + 1] == MergesStopped(database, expected[i].name, Accepted);
            assert v.trace[c] == w2.trace[c] && v.trace[c + 1] == w2.trace[c + 1];
          }
        }
      }
    }
  }

  lemma {:induction false} RebuildKeeps(w: World, env: Env, database: nat, restored: seq<Obj>, expected: seq<Obj>,
                                        order: seq<nat>, i: nat)
    requires Inv(w) && i <= |order|
    ensures var v := RebuildViews(w, env, database, restored, expected, order, i).0;
            Inv(v) && v.file == w.file && Extends(w.trace, v.trace)
    decreases |order| - i
  {
    if i < |order| {
      var drop := ViewDropped(database, order[i], Now(w, env).sent);
      var dropping := Materialized(expected, order[i]) && Names(restored, order[i]);
      if dropping {
        Quietly(w, drop);
      }
      var w1 := if dropping then Note(w, drop) else w;
      if !dropping || Now(w, env).sent == Accepted {
        var e := ViewRebuilt(database, order[i], Now(w1, env).sent);
        Quietly(w1, e);
        if Now(w1, env).sent == Accepted {
          RebuildKeeps(Note(w1, e), env, database, restored, expected, order, i + 1);
        }
      }
    }
  }

  lemma FrozenWidens(t: seq<Event>, a: nat, b: nat, c: nat, database: nat, table: nat)
    requires Frozen(t, a, b, database, table) && b <= c <= |t|
    ensures Frozen(t, a, c, database, table)
  {
  }

  lemma PrepareKeeps(w: World, env: Env, m: Manifest)
    requires Inv(w) && m.job.RestoreOf? && w.trace != []
    requires Finished(w.trace[|w.trace| - 1], m.job.id)
    ensures var (v, ready) := PrepareRestoreData(w, env, m);
            && Inv(v) && v.file == w.file
            && (ready ==> ReadyForData(v.trace, m, |w.trace| - 1, |v.trace| - 1))
  {
    var first := Now(w, env).schema;
    Quietly(w, SchemaRead(m.job.database, first));
    var expected := Schema(m.job.source.objects);
    var order := ViewOrder.Rounds(DependenciesOf(expected));
    if first.Got? && NoStrangers(first.value, expected) && order.Ok? && AllFit(expected, first.value) {
      TablesKeep(w, Note(w, SchemaRead(m.job.database, first)), env, m, first.value, order.value);
    }
  }

  /** From the first look at the schema on: the tables. */
  lemma TablesKeep(w: World, w1: World, env: Env, m: Manifest, restored: seq<Obj>, order: seq<nat>)
    requires Inv(w1) && m.job.RestoreOf? && w.trace != [] && |w.trace| < |w1.trace| && Extends(w.trace, w1.trace)
    requires Finished(w.trace[|w.trace| - 1], m.job.id)
    ensures var (v, ready) := PrepareTables(w1, env, m, restored, order);
            && Inv(v) && v.file == w1.file
            && (ready ==> ReadyForData(v.trace, m, |w.trace| - 1, |v.trace| - 1))
  {
    var expected := Schema(m.job.source.objects);
    FreezeKeeps(w1, env, m.job.database, expected, 0);
    var (w2, frozen) := FreezeTables(w1, env, m.job.database, expected, 0);
    if frozen {
      ViewsKeep(w, w2, env, m, restored, order);
    }
  }

  /** From frozen tables on: the views, and the schema read last. */
  lemma ViewsKeep(w: World, w2: World, env: Env, m: Manifest, restored: seq<Obj>, order: seq<nat>)
    requires Inv(w2) && m.job.RestoreOf? && w.trace != [] && |w.trace| < |w2.trace| && Extends(w.trace, w2.trace)
    requires Finished(w.trace[|w.trace| - 1], m.job.id)
    requires TablesFrozen(w, w2, m)
    ensures var (v, ready) := PrepareViews(w2, env, m, restored, order);
            && Inv(v) && v.file == w2.file
            && (ready ==> ReadyForData(v.trace, m, |w.trace| - 1, |v.trace| - 1))
  {
    var expected := Schema(m.job.source.objects);
    RebuildKeeps(w2, env, m.job.database, restored, expected, order, 0);
    var (w3, rebuilt) := RebuildViews(w2, env, m.job.database, restored, expected, order, 0);
    if rebuilt {
      var last := SchemaRead(m.job.database, Now(w3, env).schema);
      Quietly(w3, last);
      if Now(w3, env).schema == Got(expected) {
        FrozenReady(w, w2, Note(w3, last), m);
        LastRead(w, w2, Note(w3, last), m);
      }
    }
  }

  lemma LastRead(w: World, w2: World, v: World, m: Manifest)
    requires m.job.RestoreOf? && w.trace != [] && |w.trace| < |w2.trace| < |v.trace|
    requires Extends(w.trace, w2.trace) && Extends(w2.trace, v.trace)
    requires Finished(w.trace[|w.trace| - 1], m.job.id)
    requires AllFrozen(v.trace, |w.trace| - 1, |v.trace| - 1, m)
    requires v.trace[|v.trace| - 1] == SchemaRead(m.job.database, Got(Schema(m.job.source.objects)))
    ensures ReadyForData(v.trace, m, |w.trace| - 1, |v.trace| - 1)
  {
    assert v.trace[|w.trace| - 1] == w2.trace[|w.trace| - 1] == w.trace[|w.trace| - 1];
  }

  /** Every physical table was counted empty and frozen between the two points. */
  ghost predicate TablesFrozen(w: World, w2: World, m: Manifest)
    requires w.trace != []
  {
    var expected := Schema(m.job.source.objects);
    forall i {:trigger expected[i]} :: 0 <= i < |expected| && Physical(expected[i]) ==>
      Frozen(w2.trace, |w.trace| - 1, |w2.trace|, m.job.database, expected[i].name)
  }

  /** What was frozen before the views were rebuilt is evidence for the data restore. */
  lemma FrozenReady(w: World, w2: World, v: World, m: Manifest)
    requires w.trace != [] && |w.trace| < |w2.trace| < |v.trace| && Extends(w2.trace, v.trace)
    requires TablesFrozen(w, w2, m)
    ensures AllFrozen(v.trace, |w.trace| - 1, |v.trace| - 1, m)
  {
    var expected := Schema(m.job.source.objects);
    var a, b := |w.trace| - 1, |v.trace| - 1;
    forall i | 0 <= i < |m.job.source.objects| && Physical(m.job.source.objects[i])
      ensures Frozen(v.trace, a, b, m.job.database, m.job.source.objects[i].name)
    {
      var name := m.job.source.objects[i].name;
      assert Physical(expected[i]) && expected[i].name == name;
      FrozenExtends(w2.trace, v.trace, a, |w2.trace|, m.job.database, name);
      FrozenWidens(v.trace, a, |w2.trace|, b, m.job.database, name);
    }
  }

  // ----- every operation keeps the invariant -----

  lemma SaveKeeps(w: World, env: Env, m: Manifest, n: Manifest)
    requires Inv(w) && w.file == Some(m) && MayBecome(m, n, w.trace)
    ensures Inv(Save(w, env, n).world)
  {
    Rewriting(w, env, m, n);
  }

  /** Rejecting is kept by the event that gives the reason. */
  lemma RejectKeeps(w: World, env: Env, m: Manifest, n: Manifest, a: nat)
    requires Inv(w) && w.file == Some(m) && SameJob(m, n) && n.progress.status == Rejected
    requires n.progress.phase == m.progress.phase && n.progress.merges == m.progress.merges
    requires Refuted(w.trace, n, a)
    ensures Inv(Save(w, env, n).world)
  {
    SaveKeeps(w, env, m, n);
  }

  lemma ConfirmKeeps(w: World, env: Env, m: Manifest, n: Manifest)
    requires Inv(w) && w.file == Some(m) && !Final(m) && (m.job.RestoreOf? ==> m.progress.phase == Data)
    requires n == m.(progress := m.progress.(serverStatus := n.progress.serverStatus))
    requires w.trace != [] && Finished(w.trace[|w.trace| - 1], ActiveId(m))
    ensures Inv(Confirm(w, env, n).world)
  {
    StableScanKeeps(w, env, m.job.database, m.job.network);
    var (w1, actual) := StableScan(w, env, m.job.database, m.job.network);
    if actual.Some? {
      if m.job.RestoreOf? {
        JudgeKeeps(w, w1, env, m, n, actual.value, false);
      } else {
        var parts := Now(w1, env).parts;
        var w2 := Note(w1, PartsAsked(m.job.database, parts));
        Quietly(w1, PartsAsked(m.job.database, parts));
        if parts.Got? {
          assert Extends(w.trace, w2.trace);
          JudgeKeeps(w, w2, env, m, n, actual.value, parts.value != m.job.parts);
        }
      }
    }
  }

  /** The verdict after a stable scan that starts where w ends. */
  lemma JudgeKeeps(w: World, v: World, env: Env, m: Manifest, n: Manifest, actual: Snapshot, changed: bool)
    requires Inv(v) && v.file == Some(m) && Extends(w.trace, v.trace) && (m.job.RestoreOf? ==> m.progress.phase == Data)
    requires n == m.(progress := m.progress.(serverStatus := n.progress.serverStatus))
    requires w.trace != [] && Finished(w.trace[|w.trace| - 1], ActiveId(m))
    requires var t, b := v.trace, |w.trace|;
      && b + 2 < |t| && t[b].PartsAsked? && t[b].parts.Got? && t[b].database == m.job.database && t[b + 2] == t[b]
      && t[b + 1].Scanned? && t[b + 1].database == m.job.database && t[b + 1].scan.Got?
      && actual == SnapshotOf(t[b + 1].scan.value, m.job.network)
      && (m.job.RestoreOf? ==> !changed)
      && (m.job.BackupOf? ==>
            && b + 3 < |t| && t[b + 3].PartsAsked? && t[b + 3].database == m.job.database
            && t[b + 3].parts.Got? && (changed <==> t[b + 3].parts.value != m.job.parts))
    ensures Inv(Save(v, env, Judge(n, actual, changed)).world)
  {
    var j, a, b := Judge(n, actual, changed), |w.trace| - 1, |w.trace|;
    assert v.trace[a] == w.trace[a];
    if j.progress.status == Verified {
      assert Confirmed(v.trace, j, a, b);
      SaveKeeps(v, env, m, j);
    } else {
      RejectKeeps(v, env, m, j, if actual != m.job.source then b + 1 else b + 3);
    }
  }

  lemma UnissuedQuietly(t: seq<Event>, e: Event, kind: nat)
    requires Unissued(t, kind) && !e.Issued?
    ensures Unissued(t + [e], kind)
  {
    var u := t + [e];
    forall k | 0 <= k < |u| && u[k].Issued?
      ensures Kind(u[k].command) != kind
    {
      assert u[k] == t[k];
    }
  }

  lemma {:induction false} RefreshKeeps(w: World, env: Env, url: nat)
    requires Inv(w)
    ensures Inv(Refresh(w, env, url).world)
    decreases Rank(w), 0
  {
    var loaded := Load(w.file);
    if loaded.Some? && loaded.value.job.endpoint == url && !Final(loaded.value) {
      var m := loaded.value;
      var job := Now(w, env).job;
      var w1 := Note(w, JobAsked(ActiveId(m), job));
      Quietly(w, JobAsked(ActiveId(m), job));
      if job.Got? && job.value.Some? {
        var n := m.(progress := m.progress.(serverStatus := job.value));
        if job.value.value.BackupFailed? || job.value.value.RestoreFailed? {
          RejectKeeps(w1, env, m, RejectedFor(n, ServerOperationFailed), |w.trace|);
        } else if job.value.value.Unfinished? {
          SaveKeeps(w1, env, m, WithStatus(n, Running));
        } else if m.job.RestoreOf? && m.progress.phase == Structure {
          RefreshPrepares(w1, env, url, m, n);
        } else {
          ConfirmKeeps(w1, env, m, n);
        }
      }
    }
  }

  lemma {:induction false} RefreshPrepares(w: World, env: Env, url: nat, m: Manifest, n: Manifest)
    requires Inv(w) && w.file == Some(m) && m.job.RestoreOf? && m.progress.phase == Structure
    requires n == m.(progress := m.progress.(serverStatus := n.progress.serverStatus))
    requires w.trace != [] && Finished(w.trace[|w.trace| - 1], m.job.id)
    ensures var (v, ready) := PrepareRestoreData(w, env, n);
            && Inv(v) && (ready ==> DataStarts(v, env, url, IntoData(n)))
    decreases 1, 0, 1
  {
    PrepareKeeps(w, env, n);
    var (v, ready) := PrepareRestoreData(w, env, n);
    if ready {
      DataKeeps(v, env, url, m, n, |w.trace| - 1, |v.trace| - 1);
    }
  }

  /** The manifest is written for its data phase, and if that succeeds the command is sent. */
  ghost predicate DataStarts(v: World, env: Env, url: nat, d: Manifest) {
    && Inv(Write(v, env, d))
    && (Now(v, env).written == Stored ==> Inv(Send(Write(v, env, d), env, url, d).world))
  }

  lemma {:induction false} DataKeeps(v: World, env: Env, url: nat, m: Manifest, n: Manifest, a: nat, b: nat)
    requires Inv(v) && v.file == Some(m) && m.job.RestoreOf? && m.progress.phase == Structure
    requires n == m.(progress := m.progress.(serverStatus := n.progress.serverStatus))
    requires ReadyForData(v.trace, n, a, b)
    ensures DataStarts(v, env, url, IntoData(n))
    decreases 1, 0, 0
  {
    var d := IntoData(n);
    Rewriting(v, env, m, d);
    if Now(v, env).written == Stored {
      var x := Write(v, env, d);
      assert Extends(v.trace, x.trace);
      ReadyExtends(v.trace, x.trace, n, d, a, b);
      UnissuedQuietly(v.trace, Wrote(d), 2);
      SendKeeps(x, env, url, d);
    }
  }

  lemma RefusedKeeps(w: World, env: Env, m: Manifest, a: nat)
    requires Inv(w) && w.file == Some(m)
    requires a + 2 == |w.trace| && w.trace[a] == Issued(CommandOf(m), Refused)
      && w.trace[a + 1] == JobAsked(ActiveId(m), Got(None))
    ensures Inv(Save(w, env, RejectedFor(m, ServerRejected)).world)
  {
    RejectKeeps(w, env, m, RejectedFor(m, ServerRejected), a);
  }

  lemma {:induction false} SendKeeps(w: World, env: Env, url: nat, m: Manifest)
    requires MaySend(w, m)
    ensures Inv(Send(w, env, url, m).world)
    decreases Rank(w), 1
  {
    var sent := Now(w, env).sent;
    var w1 := Note(w, Issued(CommandOf(m), sent));
    Sending(w, m, sent);
    match sent {
      case Accepted => RefreshKeeps(w1, env, url);
      case Unreachable =>
      case Killed =>
      case Refused =>
        var job := Now(w1, env).job;
        var w2 := Note(w1, JobAsked(ActiveId(m), job));
        Quietly(w1, JobAsked(ActiveId(m), job));
        if job.Got? {
          if job.value.None? {
            RefusedKeeps(w2, env, m, |w.trace|);
          } else {
            RefreshKeeps(w2, env, url);
          }
        }
    }
  }

  lemma StartBackupKeeps(w: World, env: Env, url: nat, m: Manifest)
    requires Inv(w) && w.file == Some(m) && m.job.BackupOf?
    ensures Inv(StartBackup(w, env, url, m).world)
  {
    var job := Now(w, env).job;
    var w1 := Note(w, JobAsked(m.job.id, job));
    Quietly(w, JobAsked(m.job.id, job));
    if job.Got? {
      if job.value.Some? {
        RefreshKeeps(w1, env, url);
      } else if m.progress.status == Prepared {
        var parts := Now(w1, env).parts;
        var w2 := Note(w1, PartsAsked(m.job.database, parts));
        Quietly(w1, PartsAsked(m.job.database, parts));
        if parts.Got? {
          if parts.value != m.job.parts {
            RejectKeeps(w2, env, m, RejectedFor(m, SourceChanged), |w1.trace|);
          } else {
            var d := WithStatus(m, Dispatched);
            Rewriting(w2, env, m, d);
            if Now(w2, env).written == Stored {
              UnissuedQuietly(w2.trace, Wrote(d), 0);
              SendKeeps(Write(w2, env, d), env, url, d);
            }
          }
        }
      }
    }
  }

  lemma BackupKeeps(w: World, env: Env, c: BackupCall)
    requires Inv(w)
    ensures Inv(Backup(w, env, c).world)
  {
    if c.paused {
      if w.file.Some? {
        if w.file.value.job.BackupOf? {
          StartBackupKeeps(w, env, c.url, w.file.value);
        }
      } else {
        NewBackupKeeps(w, env, c);
      }
    }
  }

  lemma NewBackupKeeps(w: World, env: Env, c: BackupCall)
    requires Inv(w) && w.file.None? && c.paused
    ensures Inv(Backup(w, env, c).world)
  {
    var disk := Now(w, env).disk;
    var w1 := Note(w, DiskAsked(disk));
    Quietly(w, DiskAsked(disk));
    if disk == Got(true) {
      var guard := Now(w1, env).parts;
      var w2 := Note(w1, PartsAsked(c.database, guard));
      Quietly(w1, PartsAsked(c.database, guard));
      if guard.Got? {
        StableScanKeeps(w2, env, c.database, c.network);
        var (w3, source) := StableScan(w2, env, c.database, c.network);
        if source.Some? {
          var again := Now(w3, env).parts;
          var w4 := Note(w3, PartsAsked(c.database, again));
          Quietly(w3, PartsAsked(c.database, again));
          if again == guard {
            var m := NewBackup(c, source.value, guard.value);
            Creating(w4, env, m);
            if Now(w4, env).written == Stored {
              StartBackupKeeps(Write(w4, env, m), env, c.url, m);
            }
          }
        }
      }
    }
  }

  lemma RestoreKeeps(w: World, env: Env, c: RestoreCall)
    requires Inv(w)
    ensures Inv(Restore(w, env, c).world)
  {
    var loaded := Load(c.receipt);
    if loaded.Some? && loaded.value.job.BackupOf? && loaded.value.progress.status == Verified {
      var b := loaded.value;
      if w.file.Some? {
        RefreshKeeps(w, env, c.url);
      } else {
        var server := Now(w, env).server;
        var w1 := Note(w, ServerAsked(server));
        Quietly(w, ServerAsked(server));
        if server == Got(b.job.source.server) {
          var taken := Now(w1, env).target;
          var w2 := Note(w1, TargetAsked(c.target, taken));
          Quietly(w1, TargetAsked(c.target, taken));
          if taken == Got(false) {
            var m := NewRestore(c, b);
            Creating(w2, env, m);
            if Now(w2, env).written == Stored {
              SendKeeps(Write(w2, env, m), env, c.url, m);
            }
          }
        }
      }
    }
  }

  lemma {:induction false} StartMergesKeeps(w: World, env: Env, database: nat, objects: seq<Obj>, i: nat)
    requires Inv(w) && i <= |objects|
    ensures var v := StartMerges(w, env, database, objects, i).0;
            Inv(v) && v.file == w.file && Extends(w.trace, v.trace)
    decreases |objects| - i
  {
    if i < |objects| {
      if objects[i].data.None? {
        StartMergesKeeps(w, env, database, objects, i + 1);
      } else {
        var e := MergesStarted(database, objects[i].name, Now(w, env).sent);
        Quietly(w, e);
        if Now(w, env).sent == Accepted {
          StartMergesKeeps(Note(w, e), env, database, objects, i + 1);
        }
      }
    }
  }

  lemma MayRelease(t: seq<Event>, m: Manifest, n: Manifest)
    requires FileInv(m, t) && m.progress.status == Verified && m.job.RestoreOf?
    requires n == m.(progress := m.progress.(merges := Resumed))
    ensures MayBecome(m, n, t)
  {
    var a: nat, b: nat :| Confirmed(t, m, a, b);
    assert Confirmed(t, n, a, b);
  }

  lemma ReleaseKeeps(w: World, env: Env, url: nat)
    requires Inv(w)
    ensures Inv(Release(w, env, url).world)
  {
    var loaded := Load(w.file);
    if loaded.Some? && loaded.value.job.RestoreOf? && loaded.value.progress.status == Verified
      && loaded.value.job.endpoint == url {
      var m := loaded.value;
      StableScanKeeps(w, env, m.job.database, m.job.network);
      var (w1, actual) := StableScan(w, env, m.job.database, m.job.network);
      if m.progress.merges != Resumed && actual == Some(m.job.source) {
        StartMergesKeeps(w1, env, m.job.database, m.job.source.objects, 0);
        var (w2, started) := StartMerges(w1, env, m.job.database, m.job.source.objects, 0);
        if started {
          var n := m.(progress := m.progress.(merges := Resumed));
          MayRelease(w2.trace, m, n);
          SaveKeeps(w2, env, m, n);
        }
      }
    }
  }
}
