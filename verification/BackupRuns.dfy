/** The promises of the backup tool over whole histories: any number of
  * invocations, crashes, lost replies and resumes on one manifest path. */
module BackupRuns {
  import opened Common
  import opened BackupProtocol
  import opened BackupSafety

  lemma ApplyKeeps(w: World, env: Env, op: Op)
    requires Inv(w)
    ensures Inv(Apply(w, env, op).world)
  {
    match op {
      case DoBackup(c) => BackupKeeps(w, env, c);
      case DoRestore(c) => RestoreKeeps(w, env, c);
      case DoRefresh(url) => RefreshKeeps(w, env, url);
      case DoRelease(url) => ReleaseKeeps(w, env, url);
    }
  }

  lemma {:induction false} RunKeeps(w: World, env: Env, ops: seq<Op>)
    requires Inv(w)
    ensures Inv(Run(w, env, ops))
    decreases |ops|
  {
    if ops != [] {
      ApplyKeeps(w, env, ops[0]);
      RunKeeps(Apply(w, env, ops[0]).world, env, ops[1..]);
    }
  }

  /** Each manifest causes at most one BACKUP, at most one structure RESTORE and at
    * most one data RESTORE, and every command was recorded as dispatched first. */
  lemma DispatchedAtMostOnce(env: Env, ops: seq<Op>)
    ensures var w := Run(BLANK, env, ops);
            && (w.file.None? ==> forall k :: 0 <= k < |w.trace| ==> !w.trace[k].Issued?)
            && (w.file.Some? ==> AtMostOnce(w.trace) && AllJustified(w.trace, w.file.value))
  {
    RunKeeps(BLANK, env, ops);
    var w := Run(BLANK, env, ops);
    if w.file.None? {
      forall k | 0 <= k < |w.trace|
        ensures !w.trace[k].Issued?
      {
        assert Quiet(w.trace[k]);
      }
    }
  }

  /** A data RESTORE leaves only after the structure was restored, every physical
    * table was counted empty and the schema read back is the source's. */
  lemma DataFollowsStructure(env: Env, ops: seq<Op>, k: nat)
    requires k < |Run(BLANK, env, ops).trace|
    requires Run(BLANK, env, ops).trace[k].Issued? && Kind(Run(BLANK, env, ops).trace[k].command) == 2
    ensures var w := Run(BLANK, env, ops);
            w.file.Some? && exists a: nat, b: nat :: b < k && ReadyForData(w.trace, w.file.value, a, b)
  {
    DispatchedAtMostOnce(env, ops);
    var w := Run(BLANK, env, ops);
    assert IssueJustified(w.trace, k, w.file.value);
  }

  /** A verified manifest was confirmed by a stable scan equal to its source, made
    * after the server reported the last job finished. */
  lemma VerifiedWasSeen(env: Env, ops: seq<Op>)
    requires var w := Run(BLANK, env, ops); w.file.Some? && w.file.value.progress.status == Verified
    ensures var w := Run(BLANK, env, ops);
            && (w.file.value.job.RestoreOf? ==> w.file.value.progress.phase == Data)
            && exists a: nat, b: nat :: Confirmed(w.trace, w.file.value, a, b)
  {
    RunKeeps(BLANK, env, ops);
  }

  /** A rejected manifest was rejected for what was seen: the server refused the
    * command and knew no job, reported its failure, or showed other parts or
    * other contents than the recorded source. */
  lemma RejectedWasSeen(env: Env, ops: seq<Op>)
    requires var w := Run(BLANK, env, ops); w.file.Some? && w.file.value.progress.status == Rejected
    ensures var w := Run(BLANK, env, ops);
            exists a: nat :: Refuted(w.trace, w.file.value, a)
  {
    RunKeeps(BLANK, env, ops);
  }

  /** The tool always accepts the manifest file it left behind. */
  lemma OwnFileLoads(env: Env, ops: seq<Op>)
    ensures Load(Run(BLANK, env, ops).file) == Run(BLANK, env, ops).file
  {
    RunKeeps(BLANK, env, ops);
  }

  // ----- verified and rejected are final -----

  /** From w to v the manifest kept its verdict and no command was sent. */
  ghost predicate Settled(w: World, v: World) {
    && w.file.Some? && v.file.Some?
    && v.file.value == w.file.value.(progress := w.file.value.progress.(merges := v.file.value.progress.merges))
    && (w.file.value.progress.status == Rejected ==> v.file == w.file)
    && Extends(w.trace, v.trace)
    && forall k {:trigger v.trace[k]} :: |w.trace| <= k < |v.trace| ==> !v.trace[k].Issued?
  }

  lemma SettledStep(w: World, v: World, x: World)
    requires Settled(w, v) && Settled(v, x)
    ensures Settled(w, x)
  {
    forall k | 0 <= k < |w.trace|
      ensures x.trace[k] == w.trace[k]
    {
      assert x.trace[k] == v.trace[k];
    }
    forall k | |w.trace| <= k < |x.trace|
      ensures !x.trace[k].Issued?
    {
      if k < |v.trace| {
        assert x.trace[k] == v.trace[k];
      }
    }
  }

  lemma NoteSettles(w: World, e: Event)
    requires w.file.Some? && !e.Issued?
    ensures Settled(w, Note(w, e))
  {
  }

  lemma ScanSettles(w: World, env: Env, database: nat, network: nat)
    requires w.file.Some?
    ensures Settled(w, StableScan(w, env, database, network).0)
  {
    var before := PartsAsked(database, Now(w, env).parts);
    var w1 := Note(w, before);
    NoteSettles(w, before);
    if before.parts.Got? {
      var scan := Scanned(database, Now(w1, env).scan);
      var w2 := Note(w1, scan);
      NoteSettles(w1, scan);
      SettledStep(w, w1, w2);
      if scan.scan.Got? {
        var after := PartsAsked(database, Now(w2, env).parts);
        NoteSettles(w2, after);
        SettledStep(w, w2, Note(w2, after));
      }
    }
  }

  lemma {:induction false} StartMergesSettles(w: World, env: Env, database: nat, objects: seq<Obj>, i: nat)
    requires w.file.Some? && i <= |objects|
    ensures Settled(w, StartMerges(w, env, database, objects, i).0)
    decreases |objects| - i
  {
    if i < |objects| {
      if objects[i].data.None? {
        StartMergesSettles(w, env, database, objects, i + 1);
      } else {
        var e := MergesStarted(database, objects[i].name, Now(w, env).sent);
        NoteSettles(w, e);
        if Now(w, env).sent == Accepted {
          StartMergesSettles(Note(w, e), env, database, objects, i + 1);
          SettledStep(w, Note(w, e), StartMerges(Note(w, e), env, database, objects, i + 1).0);
        }
      }
    }
  }

  lemma ReleaseSettles(w: World, env: Env, url: nat)
    requires w.file.Some?
    ensures Settled(w, Release(w, env, url).world)
  {
    var m := w.file.value;
    if Acceptable(m) && m.job.RestoreOf? && m.progress.status == Verified && m.job.endpoint == url
      && m.progress.merges != Resumed {
      ScanSettles(w, env, m.job.database, m.job.network);
      var (w1, actual) := StableScan(w, env, m.job.database, m.job.network);
      if actual == Some(m.job.source) {
        StartMergesSettles(w1, env, m.job.database, m.job.source.objects, 0);
        var (w2, started) := StartMerges(w1, env, m.job.database, m.job.source.objects, 0);
        SettledStep(w, w1, w2);
        if started {
          var n := m.(progress := m.progress.(merges := Resumed));
          assert Settled(w2, Write(w2, env, n));
          SettledStep(w, w2, Write(w2, env, n));
        }
      }
    }
  }

  lemma FinalSettles(w: World, env: Env, op: Op)
    requires w.file.Some? && Final(w.file.value)
    ensures Settled(w, Apply(w, env, op).world)
  {
    if op.DoRelease? {
      ReleaseSettles(w, env, op.url);
    }
  }

  /** Once verified or rejected, no later history changes the verdict or sends a
    * command; only releasing the merges of a verified restore is recorded. */
  lemma {:induction false} VerdictIsFinal(w: World, env: Env, ops: seq<Op>)
    requires w.file.Some? && Final(w.file.value)
    ensures Settled(w, Run(w, env, ops))
    decreases |ops|
  {
    if ops != [] {
      var v := Apply(w, env, ops[0]).world;
      FinalSettles(w, env, ops[0]);
      VerdictIsFinal(v, env, ops[1..]);
      SettledStep(w, v, Run(v, env, ops[1..]));
    }
  }

  // ----- the two receipts -----

  /** The scan at position k found exactly the snapshot. */
  predicate Found(t: seq<Event>, k: nat, database: nat, s: Snapshot) {
    && k < |t| && t[k].Scanned? && t[k].scan.Got?
    && t[k].database == database && SnapshotOf(t[k].scan.value, s.network) == s
  }

  /** The offline comparison of a backup and a restore manifest, each written by
    * this tool, succeeds exactly when the restore is verified and was started from
    * this very backup manifest; then the same contents, row digests included, were
    * read from the source database and from the restored one. */
  lemma ReceiptsCertify(env: Env, ops: seq<Op>, env': Env, ops': seq<Op>)
    ensures var b, r := Run(BLANK, env, ops).file, Run(BLANK, env', ops').file;
            ReceiptsAgree(b, r) <==>
              && r.Some? && r.value.job.RestoreOf? && r.value.progress.status == Verified
              && b == Some(r.value.job.receipt)
    ensures var w, v := Run(BLANK, env, ops), Run(BLANK, env', ops');
            ReceiptsAgree(w.file, v.file) ==>
              exists i: nat, k: nat :: Found(w.trace, i, w.file.value.job.database, w.file.value.job.source)
                && Found(v.trace, k, v.file.value.job.database, w.file.value.job.source)
  {
    RunKeeps(BLANK, env, ops);
    RunKeeps(BLANK, env', ops');
    var w, v := Run(BLANK, env, ops), Run(BLANK, env', ops');
    if ReceiptsAgree(w.file, v.file) {
      var m, n := w.file.value, v.file.value;
      var a: nat, b: nat :| Confirmed(w.trace, m, a, b);
      var a': nat, b': nat :| Confirmed(v.trace, n, a', b');
      assert Found(w.trace, b + 1, m.job.database, m.job.source);
      assert Found(v.trace, b' + 1, n.job.database, m.job.source);
    }
  }
}
