# Verified models of the AML services

This project models the parts of the repository where the order of events, caps
and crashes decide whether a result may be believed, and proves what those parts
promise. `dafny verify dfyconfig.toml` checks the whole project.

- **Bitcoin analytics worker** (`Analytics*.dfy`): the crash-recoverable scheduler
  with its bounded queue, paginated cursor and checkpoint file. `AnalyticsState`
  holds the persistent state and its steps, `AnalyticsWorld` the worker with its file
  as a state machine whose inputs are clocks, replies and the fate of every write,
  `AnalyticsInvariant` what each step keeps, `AnalyticsRuns` and `AnalyticsSweeps` the
  results over whole runs, `AnalyticsLimit` a run that reaches the end of its counters,
  `AnalyticsWorker` the object whose methods are proved to perform those steps, and
  which is driven through whole histories.
- **Bounded searches**: Ethereum wallet paths (`WalletPaths`) and BSC exposure
  (`Exposure`, `ExposureReport`) are proved against a declarative set of paths, in both
  directions of their truncation flag; `WalletExample` is an answer that a query limit
  leaves empty. Bitcoin chronological connections (`ChronoPaths`) are proved against the
  order in which addresses are met (`ChronoVisits`) over the trails of `ChronoTrails`;
  what an empty answer excludes, and what it does not, is in `ChronoClosure`, and
  `ChronoExample` is a search that misses a trail.
- **Native backup and restore** (`Backup*.dfy`): the manifest protocol as a history of
  interactions, each answered by an arbitrary environment. `BackupProtocol` says
  what one invocation does, `BackupSafety` what every invocation keeps, `BackupRuns`
  the results over all histories, `BackupViews` the order in which views are created
  again, `BackupHonest` that a faithful server leads to verified receipts,
  `BackupOperator` the tool itself.
- **Exact verification**: view ordering (`ViewOrder`) and the row digest (`RowDigest`).
- **Text formats**: the SQL splitter (`SqlLexer`, an independent lexer, and
  `SqlSplitter`) and the environment file (`EnvFile`).
- **Amounts**: Bitcoin peel chains over the transaction reader (`PeelChain`,
  `PeelSteps`) and BSC subject flows (`SubjectFlow`, as texts `FlowText`).
- **Snapshots** (`SnapshotStore`, `SnapshotRace`): export against expiry as
  interleaved transactions.

Where the code changes state step by step, a method with the loop of the source or
a class with its fields is proved against a function or a declarative contract; where it
computes, the model is a function.

## Results that limit the code

- Sweep coverage holds for an address exactly unless a branch reset dropped it without beginning a
  pass (`AnalyticsRuns.SweepCoverage`). That takes a worker that has spent both its generation and its
  pass counter; there is a run that gets there (`AnalyticsLimit.LimitIsReached`). Every checkpoint is
  covered.
- The query for the active claims of an address returns a hundred and flags nothing. An untruncated exposure
  report is exact over all active claims if and only if no claim beyond that limit is a seed at the end of a
  covered chain or makes a service on a chain to a seed (`ExposureReport.ExposureOf`); a seed can be missed
  (`ExposureReport.HiddenSeed`).
- The Bitcoin search keeps the first payment of an address, in the order of transaction texts, and follows only
  what is spent after it. It misses an address within the hop limit exactly where it rejects a spend of a met
  address that leads on (`ChronoClosure.MissesIff`); it misses none where no spend lies between two payments to
  one address (`ChronoClosure.ClosedExcludes`). Whether it finds a way can hang on the text of a transaction
  (`ChronoExample.FindShop`).
- The query for the edges of an Ethereum address returns as many as the request admits and flags nothing. An
  untruncated answer is exhaustive over all stored edges if and only if no path that belongs in it needs an edge
  that was cut off (`WalletPaths.FindPaths`); a path can be missed (`WalletExample.MissFriend`).
- The value encoding is injective exactly on types without directly nested Nullable
  (`RowDigest.InjectiveIff`); a nested one collides (`RowDigest.NestedNullsCollide`).
- The environment round trip holds exactly for admissible dictionaries
  (`EnvFile.RoundTrip`); a single quote in a value is lost (`EnvFile.QuoteIsLost`).
- The flow summary is independent of leg order except for its recipient, and with the recipient exactly
  when all legs that leave the protocol go to one receiver (`SubjectFlow.SummaryStable`).
- In the Ethereum path loop, the test that skips walks at the hop limit is never true:
  such walks are not queued.

## Assumptions

- The canonical addresses of a scan are fixed by its start, height and block hash, and
  are listed in increasing order; an address is its rank in the database's string order;
  normalising a canonical address changes nothing.
- A digest is modelled by the digested value, so equal digests mean equal contents.
- A database reply is a function of the query for one call (`Loader`, `Replies`, the local
  graphs, the rows of the peel reader) or an arbitrary input of a step. Edge ids are distinct in
  one reply.
- A crash inside a cycle of the worker is a cycle whose later writes are lost, followed by a
  crash; a cancelled cycle is one whose awaited reply fails.
- One process at a time works on a manifest path, as the file lock beside it enforces, and
  nobody else edits the manifest. A command counts as issued from the moment the
  process tries to send it.
- Neo4j holds the lock of a node that a transaction wrote until it ends, and shows
  others only committed changes.

## Model

| member | source | states |
|---|---|---|
| `AnalyticsRuns.RunInv` | dockerizd_bitcoin/src/analytics/engine.rs:11-250 | Every run of the worker (cycles, pauses, operator retries, crashes, reopens, with any checkpoint write lost or unsynced) keeps the invariant of memory and file. |
| `AnalyticsRuns.SweepCoverage` | dockerizd_bitcoin/src/analytics/engine.rs:85-226 | In every run, when the scan is exhausted and no queued job is active, a canonical address of the scan has completed an analysis since the pass began or holds a failed job, exactly unless a branch reset dropped it without beginning a pass; in the file, and in a worker that can still write, no address is dropped. |
| `AnalyticsRuns.DroppedAtTheLimit` | dockerizd_bitcoin/src/analytics/engine.rs:85-101 | Addresses are dropped only by a worker whose pass and generation counters are both spent, and never in the file. |
| `AnalyticsLimit.LimitIsReached` | dockerizd_bitcoin/src/analytics/engine.rs:85-185 | For every configuration there is a run after which a worker has finished its sweep without its only address. |
| `AnalyticsRuns.AttemptBound` | dockerizd_bitcoin/src/analytics/engine.rs:102-248 | Over any crashes, the analyses started since a pass began number at most max_attempts for each address of the scan and each operator retry. |
| `AnalyticsRuns.CheckpointAccepted` | dockerizd_bitcoin/src/analytics/checkpoint.rs:13-85 | The loader accepts every state that the worker leaves on disk or holds in memory, and a stopped worker reopens whenever its write succeeds. |
| `AnalyticsRuns.JobConservation` | dockerizd_bitcoin/src/analytics/engine.rs:11-250 | Jobs ever enqueued = completed + abandoned + queued, in every reachable state; the stored 64-bit counters are these counts until they saturate, and the stored receipts are the latest sixteen. |
| `AnalyticsRuns.DueIsLeast` | dockerizd_bitcoin/src/analytics/mod.rs:142-151 | `due` picks the least eligible job by (retried, due time, position) and nothing exactly when no job is eligible. |
| `AnalyticsRuns.FreshJobsFirst` | dockerizd_bitcoin/src/analytics/mod.rs:142-151 | While a fresh job is due, the scheduler never picks a retried one. |
| `AnalyticsRuns.BackoffBounds` | dockerizd_bitcoin/src/analytics/mod.rs:184-189 | The retry delay is at least the configured one, at most an hour, and never shorter after more attempts. |
| `AnalyticsSweeps.DrainedSweepRestarts` | dockerizd_bitcoin/src/analytics/engine.rs:147-226 | In every run: after a cycle that idles on a drained scan, a cycle from the scheduled time on, on the same branch, leaves on disk the next pass with a scan of the source tip, whatever else fails in it. |
| `AnalyticsSweeps.SweepBeginsWhenDue` | dockerizd_bitcoin/src/analytics/engine.rs:186-250 | A due sweep begins in the next cycle on the scanned branch; only the write of its beginning has to reach the disk. |
| `AnalyticsSweeps.NoSweepBeforeDue` | dockerizd_bitcoin/src/analytics/engine.rs:186-226 | Before that time a cycle on the same branch stays in the pass. |
| `AnalyticsSweeps.IdleSchedulesSweep` | dockerizd_bitcoin/src/analytics/engine.rs:199-226 | A cycle that idles on a drained scan keeps the time already set or sets one refresh interval from now, never zero. |
| `AnalyticsRuns.OpenInv` | dockerizd_bitcoin/src/analytics/engine.rs:11-44 | Opening keeps the invariant, over definition changes and interrupted attempts. |
| `AnalyticsRuns.CycleInv` | dockerizd_bitcoin/src/analytics/engine.rs:147-250 | One scheduling cycle keeps the invariant for every database reply, clock and write outcome. |
| `AnalyticsRuns.BeginAttemptLive` | dockerizd_bitcoin/src/analytics/engine.rs:227-231 | An analysis is counted as started exactly when the start was stored; then the file holds the running job with its attempt, and the invariant holds either way. |
| `AnalyticsInvariant.PageAnswersQuery` | dockerizd_bitcoin/src/analytics/engine.rs:111-111 | The page of the cursor query: increasing, beyond the cursor, nothing in between left out, and short only at the end. |
| `AnalyticsInvariant.AbsorbGood` | dockerizd_bitcoin/src/analytics/engine.rs:116-143 | One discovered row moves the cursor to the next canonical address and covers it, by a new job or the one that holds it. |
| `AnalyticsInvariant.AbsorbPageGood` | dockerizd_bitcoin/src/analytics/engine.rs:102-145 | After one page of the query the cursor invariant holds; the exhausted flag is set only when the cursor passed every canonical address. |
| `AnalyticsRuns.SweepLive` | dockerizd_bitcoin/src/analytics/engine.rs:186-195 | A due sweep begins with only failed jobs in the queue and forgets nothing of them. |
| `AnalyticsInvariant.ResetGood` | dockerizd_bitcoin/src/analytics/engine.rs:176-185 | Below the last pass number a branch reset abandons the queue, begins a pass and keeps the invariant with its balance of jobs. |
| `AnalyticsInvariant.DropGood` | dockerizd_bitcoin/src/analytics/engine.rs:176-185 | At the last pass number a branch reset counts the queue as abandoned, begins no pass, and what it dropped unanalysed is recorded. |
| `AnalyticsInvariant.StartGood` | dockerizd_bitcoin/src/analytics/engine.rs:227-231 | Starting an attempt uses up one unit of the attempt bound. |
| `AnalyticsInvariant.FinishOkGood` | dockerizd_bitcoin/src/analytics/mod.rs:160-169 | A completed job leaves the queue, is counted once and its address counts as analysed. |
| `AnalyticsInvariant.FinishErrGood` | dockerizd_bitcoin/src/analytics/mod.rs:170-193 | A failed attempt leaves a job that is failed exactly at the attempt limit and otherwise to be retried. |
| `AnalyticsInvariant.InterruptedGood` | dockerizd_bitcoin/src/analytics/engine.rs:24-36 | Interrupted attempts become retries, or failures at the limit, and keep the invariant. |
| `AnalyticsInvariant.RedefineGood` | dockerizd_bitcoin/src/analytics/engine.rs:16-23 | A configuration change abandons and counts the queue and drops the scan. |
| `AnalyticsInvariant.RetryGood` | dockerizd_bitcoin/src/analytics/engine.rs:65-77 | An operator retry of a failed job restores its attempts and is charged to the bound. |
| `AnalyticsState.FindFailed` | dockerizd_bitcoin/src/analytics/engine.rs:66-71 | The first failed job with the id, or none exactly when there is no such job. |
| `AnalyticsWorker.Load` | dockerizd_bitcoin/src/analytics/checkpoint.rs:13-56 | Reading the checkpoint file: nothing, the state, or an error exactly when a check fails. |
| `AnalyticsWorker.OpenWorker` | dockerizd_bitcoin/src/analytics/engine.rs:11-44 | Opening gives the worker and the file of the specification, or none and the file the specification leaves. |
| `AnalyticsWorker.Worker.Save` | dockerizd_bitcoin/src/analytics/checkpoint.rs:57-85 | Bumps generation and heartbeat and replaces the file, as the fate of the write says. |
| `AnalyticsWorker.Worker.InterruptRunning` | dockerizd_bitcoin/src/analytics/engine.rs:24-36 | The loop over the queue turns every running job into an interrupted one. |
| `AnalyticsWorker.Worker.Pause` | dockerizd_bitcoin/src/analytics/engine.rs:48-64 | Memory and file after a shutdown. |
| `AnalyticsWorker.Worker.RetryFailed` | dockerizd_bitcoin/src/analytics/engine.rs:65-77 | Memory and file after an operator retry, or an error when no failed job has the id. |
| `AnalyticsWorker.Worker.FindFailedJob` | dockerizd_bitcoin/src/analytics/engine.rs:66-71 | The search loop finds what the specification finds. |
| `AnalyticsWorker.Worker.DueIndex` | dockerizd_bitcoin/src/analytics/mod.rs:142-151 | The scan of the queue finds the job of the specification. |
| `AnalyticsWorker.Worker.BeginNewPass` | dockerizd_bitcoin/src/analytics/engine.rs:85-101 | The new pass, or an error at the counter limit. |
| `AnalyticsWorker.Worker.TakeRows` | dockerizd_bitcoin/src/analytics/engine.rs:116-143 | The loop over the discovered rows. |
| `AnalyticsWorker.Worker.DiscoverPage` | dockerizd_bitcoin/src/analytics/engine.rs:102-146 | One discovery step: skipped, refused or stored. |
| `AnalyticsWorker.Worker.FinishJob` | dockerizd_bitcoin/src/analytics/mod.rs:152-194 | The job after its attempt. |
| `AnalyticsWorker.Worker.Heartbeat` | dockerizd_bitcoin/src/analytics/engine.rs:238-245 | Heartbeat saves while the analysis runs; a failed one ends the cycle. |
| `AnalyticsWorker.Worker.StartJob` | dockerizd_bitcoin/src/analytics/engine.rs:227-231 | The attempt is marked and stored. |
| `AnalyticsWorker.Worker.RunAttempt` | dockerizd_bitcoin/src/analytics/engine.rs:227-249 | One durable attempt from its start to its stored result. |
| `AnalyticsWorker.Worker.AbandonJobs` | dockerizd_bitcoin/src/analytics/engine.rs:177-181 | The queue is counted as abandoned and cleared. |
| `AnalyticsWorker.Worker.PrepareScan` | dockerizd_bitcoin/src/analytics/engine.rs:169-185 | The branch check and the reset. |
| `AnalyticsWorker.Worker.RefillQueue` | dockerizd_bitcoin/src/analytics/engine.rs:186-198 | A new pass when one is due, then discovery when no job is due. |
| `AnalyticsWorker.Worker.RecordIdle` | dockerizd_bitcoin/src/analytics/engine.rs:199-226 | Phase, reason and next sweep of a cycle without a job. |
| `AnalyticsWorker.Worker.CycleBody` | dockerizd_bitcoin/src/analytics/engine.rs:160-250 | One cycle without its error report. |
| `AnalyticsWorker.Worker.CycleOnce` | dockerizd_bitcoin/src/analytics/engine.rs:147-159 | One cycle: memory, file and record of analyses are those of the specification. |
| `AnalyticsWorker.Perform` | dockerizd_bitcoin/src/analytics/engine.rs:11-250 | Opening, cycling, pausing, retrying and crashing, performed on the file and the worker, are the events of a run. |
| `AnalyticsWorker.Drive` | dockerizd_bitcoin/src/analytics/engine.rs:11-250 | A whole history on a new file shows the world of the run of its events. |
| `WalletPaths.FindPaths` | dockerizd_ethereum/src/investigation.rs:555-686 | For every stored graph and request: sound paths within the clamped limits; not truncated, exhaustive over the edges that the queries return, and over all stored edges exactly when no path that belongs in the answer needs an edge beyond the per-address limit; truncated only when a cap was really met by what the search can reach; an error exactly for equal endpoints. |
| `WalletPaths.ExhaustiveIff` | dockerizd_ethereum/src/investigation.rs:715-749 | The limit of the query raises no flag; it changes the answer exactly where a connecting path, not beyond the result limit, needs an edge that was cut off. |
| `WalletExample.MissFriend` | dockerizd_ethereum/src/investigation.rs:715-749 | With one edge per address, an answer without a path and without the flag, although stored edges connect source and target. |
| `WalletPaths.SearchPaths` | dockerizd_ethereum/src/investigation.rs:574-650 | The worklist loop terminates and returns simple source-to-target paths over loaded edges in hop order, without repetition, with all their edges; untruncated it misses no path, except at the result limit none shorter than the last one returned. |
| `WalletPaths.TakeEdge` | dockerizd_ethereum/src/investigation.rs:604-649 | One edge is skipped, completes a path or queues one longer walk, and nothing that could connect is lost unless the queue is full. |
| `WalletPaths.ExpansionLighter` | dockerizd_ethereum/src/investigation.rs:574-650 | The termination measure: all walks that replace a popped walk of length d together weigh less than it. |
| `WalletPaths.ReplacedWeight` | dockerizd_ethereum/src/investigation.rs:642-647 | The exact weight of a queue after an expansion. |
| `WalletPaths.EdgeCompletes` | dockerizd_ethereum/src/investigation.rs:604-649 | Each connecting path is found, has a queued prefix or waits for a later edge of the current walk. |
| `WalletPaths.AnswerSound` | dockerizd_ethereum/src/investigation.rs:652-660 | The selected edges are those of the paths, or all discovered ones when there is no path. |
| `ExposureReport.ExposureOf` | dockerizd_bsc/src/intelligence.rs:176-290 | The rows found with the highest scores; untruncated, exactly those of all covered chains over the claims that the query returns, and over all active claims if and only if nothing that matters is hidden; truncated only when what had to be covered met a cap. |
| `ExposureReport.LimitHarmless` | dockerizd_bsc/src/intelligence.rs:137-143 | The limit of the claim query changes no row exactly when no claim beyond it is a seed at the end of a covered chain or makes a service on a chain to a seed. |
| `ExposureReport.SameRows` | dockerizd_bsc/src/intelligence.rs:137-143 | Where no address that is met has more than a hundred active claims, the limit of the claim query changes no row. |
| `ExposureReport.HiddenSeed` | dockerizd_bsc/src/intelligence.rs:137-143 | A seed claim beyond the hundredth of an address is missed by every untruncated report, and nothing is flagged. |
| `ExposureReport.FirstAreBest` | dockerizd_bsc/src/intelligence.rs:278-285 | After sorting and cutting, the rows descend by score and none that is left out scores higher than one that is kept. |
| `Exposure.Search` | dockerizd_bsc/src/intelligence.rs:182-277 | The worklist loop: every row found is right and listed once; untruncated, the rows are exactly those of all covered chains; truncated only when what had to be covered met a cap. |
| `Exposure.TakeEdge` | dockerizd_bsc/src/intelligence.rs:208-276 | One transfer is skipped, or its rows are emitted and the longer chain queued, and no covered chain is lost unless a cap is met. |
| `Exposure.EmitRows` | dockerizd_bsc/src/intelligence.rs:236-268 | One row for each seed label of the chain end, in label order. |
| `Exposure.SeedRowsMeaning` | dockerizd_bsc/src/intelligence.rs:236-268 | The emitted rows are those of the seed labels, each once. |
| `Exposure.CapsOverflow` | dockerizd_bsc/src/intelligence.rs:195-198 | The three caps of the loop head are met only by that many different chains, expanded addresses or rows. |
| `Exposure.CompleteExact` | dockerizd_bsc/src/intelligence.rs:193-277 | With nothing queued the rows are exactly the declarative ones. |
| `Exposure.LeadingEdge` | dockerizd_bsc/src/intelligence.rs:209-276 | The next transfer of a covered chain completes it or prolongs a prefix that is queued. |
| `ChronoPaths.FindPath` | dockerizd_bitcoin/src/api.rs:499-604 | The search sees exactly the first visits (breadth first over the payers, the first payment of an address kept), as many as the address cap admits, and stops when the target is met or nothing is queued, not before. A returned path is chronological, without repetition, within the hop limit, from source to target, with all its edges in the answer. Without the flag either the target is among the visits and there is a path, or it is not and every visit had its turn. |
| `ChronoPaths.GatheredRight` | dockerizd_bitcoin/src/api.rs:500-575 | The evidence comes from the endpoints and the neighbourhoods of the addresses that were expanded; without the flag it has all of them; the flag is raised only where an address beyond the cap, a part of such a neighbourhood or a graph cap was left out. |
| `ChronoVisits.VisitsRight` | dockerizd_bitcoin/src/api.rs:516-579 | Each address is met once and by a spend after the payment of its payer, depths ascend up to the hop limit, and an address that had its turn met everything that later spends of it pay. |
| `ChronoVisits.FirstPaymentKept` | dockerizd_bitcoin/src/api.rs:519-572 | Of all payments of an address, by payers in breadth-first order, transaction text and output id, the first one is kept. |
| `ChronoVisits.OffersMeaning` | dockerizd_bitcoin/src/api.rs:524-545 | The payments of an address are loaded and spent later, and each output of a later spend is among them. |
| `ChronoVisits.OffersAscend` | dockerizd_bitcoin/src/api.rs:524-545 | They are taken by transaction text, and in one transaction by edge id. |
| `ChronoPaths.SpendingInputs` | dockerizd_bitcoin/src/api.rs:524-537 | For each transaction that spends later, once, the last spending edge in id order; the transactions ascend, and none is missed. |
| `ChronoPaths.TakeOutput` | dockerizd_bitcoin/src/api.rs:546-574 | One output: skipped, visited, or left out exactly when the address cap is exceeded. |
| `ChronoPaths.TakeInputs` | dockerizd_bitcoin/src/api.rs:538-574 | Queue, seen addresses and parents after all payments of an address are those of the visits up to the cap; the flag is raised exactly when there are more. |
| `ChronoPaths.Turn` | dockerizd_bitcoin/src/api.rs:519-577 | One turn of the search shows the next stage of the visits and of the evidence. |
| `ChronoPaths.Rebuild` | dockerizd_bitcoin/src/api.rs:581-596 | The backward walk over the parent map terminates and, reversed, is the trail to the visit of the target. |
| `ChronoTrails.PathFollows` | dockerizd_bitcoin/src/api.rs:582-596 | The path alternates addresses and transactions, and edge j joins node j and node j + 1. |
| `ChronoVisits.TrailChained` | dockerizd_bitcoin/src/api.rs:524-579 | Along the trail to a visit, transactions are consecutive and their (block, index) strictly increases; its length is the depth of the visit, at most the hop limit. |
| `ChronoVisits.TrailDistinct` | dockerizd_bitcoin/src/api.rs:546-553 | No address repeats on the trail to a visit. |
| `ChronoPaths.RebuiltGood` | dockerizd_bitcoin/src/api.rs:581-604 | The rebuilt path is good whenever its edges are in the graph, which they are unless the graph is flagged. |
| `ChronoClosure.MissesIff` | dockerizd_bitcoin/src/api.rs:516-577 | A finished search misses an address within the hop limit exactly where a trail over met addresses has a next spend that the time guard or the hop limit rejects and that pays an address not met. |
| `ChronoClosure.MissedAtGuard` | dockerizd_bitcoin/src/api.rs:529-536 | On every trail to an address that was not met, the time guard rejected a spend, after the search had met the trail stop by stop up to there. |
| `ChronoClosure.TargetMissedIff` | dockerizd_bitcoin/src/api.rs:516-604 | A target that was not met is within reach exactly over a trail with such a rejected spend. |
| `ChronoClosure.ClosedExcludes` | dockerizd_bitcoin/src/api.rs:516-604 | When no spend of an address lies between two payments to it, a finished search without the target excludes every chronological trail of addresses to it within the hop limit. |
| `ChronoExample.FindShop` | dockerizd_bitcoin/src/api.rs:499-604 | A wallet paid in the blocks x and y spends in block 7: the search is never flagged and has a path to the shop exactly when the payment whose transaction text is smaller comes before block 7, whatever the other one does. |
| `ChronoPaths.MergedRight` | shared/warehouse/src/relationships/model.rs:344-372 | Merging adds only what it is given, drops nothing unless flagged, never exceeds its caps, and is flagged only for a cap or a malformed neighbourhood. |
| `ChronoPaths.Merge` | shared/warehouse/src/relationships/model.rs:344-372 | The two loops give the merged graph, element by element. |
| `BackupRuns.DispatchedAtMostOnce` | scripts/warehouse_backup.py:309-475 | Over any crashes, lost replies and resumes, one manifest path sees at most one BACKUP, one structure RESTORE and one data RESTORE, each sent right after the manifest was stored as dispatched for it. |
| `BackupRuns.DataFollowsStructure` | scripts/warehouse_backup.py:418-475 | A data RESTORE leaves only after the structure restore finished, every physical table was then empty with its merges stopped, and the schema read last is that of the source. |
| `BackupViews.ViewsFollowDependencies` | scripts/warehouse_backup.py:418-458 | A successful preparation has created every view again, each after all views that it depends on; with cyclic dependencies none succeeds. |
| `BackupRuns.VerifiedWasSeen` | scripts/warehouse_backup.py:354-386 | A verified manifest was confirmed by a stable snapshot equal to its source, after its last job was reported finished; a backup also with its parts unchanged. |
| `BackupRuns.RejectedWasSeen` | scripts/warehouse_backup.py:309-475 | A rejected manifest was rejected for an event that gives exactly its recorded reason. |
| `BackupRuns.OwnFileLoads` | scripts/warehouse_backup.py:248-266 | The tool always accepts the manifest file it left behind. |
| `BackupRuns.VerdictIsFinal` | scripts/warehouse_backup.py:309-490 | Once verified or rejected, no later history changes the verdict or sends a command; only the release of merges is recorded. |
| `BackupRuns.ReceiptsCertify` | scripts/warehouse_backup.py:497-502 | The offline comparison succeeds exactly when the restore is verified and was started from this backup manifest; then both databases were seen with the same contents. |
| `BackupSafety.RefreshKeeps` | scripts/warehouse_backup.py:354-386 | `refresh` keeps the invariant of manifest and history. |
| `BackupSafety.SendKeeps` | scripts/warehouse_backup.py:461-475 | Sending a command keeps it, for every fate of the command. |
| `BackupSafety.BackupKeeps` | scripts/warehouse_backup.py:309-351 | `backup` keeps it, new or resumed. |
| `BackupSafety.RestoreKeeps` | scripts/warehouse_backup.py:389-415 | `restore` keeps it, new or resumed. |
| `BackupSafety.ReleaseKeeps` | scripts/warehouse_backup.py:478-490 | Releasing the merges keeps it. |
| `BackupSafety.PrepareKeeps` | scripts/warehouse_backup.py:418-458 | A successful preparation is the evidence that a data restore needs. |
| `BackupSafety.JudgeKeeps` | scripts/warehouse_backup.py:374-386 | Verified or rejected, the verdict rests on the scan just made. |
| `BackupHonest.BackupCompletes` | scripts/warehouse_backup.py:309-386 | With a faithful server and no writers, one call makes a verified backup of what was read. |
| `BackupHonest.RestoreCompletes` | scripts/warehouse_backup.py:389-475 | From a verified backup one call makes a verified restore, and the two receipts agree. |
| `BackupHonest.PrepareSucceeds` | scripts/warehouse_backup.py:418-458 | The preparation accepts the exact, empty structure. |
| `BackupOperator.Operator.Write` | scripts/warehouse_backup.py:293-300 | The manifest file is replaced or not; the call goes on only if it was. |
| `BackupOperator.Operator.StableScan` | scripts/warehouse_backup.py:234-239 | A snapshot only if the parts did not change around it. |
| `BackupOperator.Operator.FreezeTables` | scripts/warehouse_backup.py:431-437 | The loop over the physical tables: count, then stop merges. |
| `BackupOperator.Operator.RebuildViews` | scripts/warehouse_backup.py:442-456 | The loop over the ordered views: a materialized one that is there is dropped, then each is created. |
| `BackupOperator.Operator.PrepareRestoreData` | scripts/warehouse_backup.py:418-458 | The checks and repairs before the data restore. |
| `BackupOperator.Operator.Send` | scripts/warehouse_backup.py:461-475 | The command and what follows from its fate. |
| `BackupOperator.Operator.Confirm` | scripts/warehouse_backup.py:374-386 | The verdict from a new stable snapshot. |
| `BackupOperator.Operator.Refresh` | scripts/warehouse_backup.py:354-386 | Manifest, history and answer of one refresh, with the data restore it may start. |
| `BackupOperator.Operator.StartBackup` | scripts/warehouse_backup.py:331-351 | From a known manifest: resume, refuse or dispatch. |
| `BackupOperator.Operator.Backup` | scripts/warehouse_backup.py:309-351 | Manifest, history and answer of one backup call. |
| `BackupOperator.Operator.Restore` | scripts/warehouse_backup.py:389-415 | Manifest, history and answer of one restore call. |
| `BackupOperator.Operator.Release` | scripts/warehouse_backup.py:478-490 | Manifest, history and answer of releasing the merges. |
| `BackupOperator.Operator.Drive` | scripts/warehouse_backup.py:545-558 | A whole history of invocations leaves the file and history of the run. |
| `BackupProtocol.Schema` | scripts/warehouse_backup.py:421-421 | The schema-only form of a snapshot, object by object. |
| `ViewOrder.OrderViews` | scripts/warehouse_backup.py:178-187 | Raises exactly when the dependencies have a cycle, self-loops included; otherwise every view once, after all views it depends on, by rounds and names. |
| `ViewOrder.RoundsRight` | scripts/warehouse_backup.py:178-187 | The rounds as a function: an error exactly for cyclic dependencies, otherwise the order. |
| `ViewOrder.OrderUnique` | scripts/warehouse_backup.py:178-187 | There is only one such order. |
| `ViewOrder.OrderedAcyclic` | scripts/warehouse_backup.py:178-187 | A list with every view after its dependencies rules out cycles. |
| `ViewOrder.StuckCyclic` | scripts/warehouse_backup.py:180-182 | When no view is ready, the remaining dependencies contain a cycle. |
| `ViewOrder.LevelsUnique` | scripts/warehouse_backup.py:179-186 | The round in which each view becomes ready is determined. |
| `RowDigest.EncodeInjective` | scripts/warehouse_backup.py:128-151 | The typed encoding of values is injective on every supported type without directly nested Nullable. |
| `RowDigest.NestedNullsCollide` | scripts/warehouse_backup.py:134-136 | A type with directly nested Nullable has two values with the same encoding. |
| `RowDigest.InjectiveIff` | scripts/warehouse_backup.py:128-151 | A supported type is encoded injectively exactly when no Nullable is directly nested. |
| `RowDigest.TypeInjectiveIff` | scripts/warehouse_backup.py:134-151 | The same for the text of a column type, as the branches read it. |
| `RowDigest.TrimInjective` | scripts/warehouse_backup.py:141-142 | The bytes of a float without the zero bytes at their end still tell values of one width apart. |
| `RowDigest.RowTextInjective` | scripts/warehouse_backup.py:104-114 | Different rows of a table have different JSON texts. |
| `RowDigest.StreamInjective` | scripts/warehouse_backup.py:115-116 | The length-delimited byte stream determines the list of row texts. |
| `RowDigest.StreamVerifies` | scripts/warehouse_backup.py:97-125 | Two tables feed the same stream to the hash exactly when their multisets of rows are equal, duplicates and NULLs included. |
| `RowDigest.TextsMultiset` | scripts/warehouse_backup.py:104-114 | Equal multisets of texts and of rows are the same. |
| `RowDigest.TableStream` | scripts/warehouse_backup.py:110-125 | The reading loop counts the rows and feeds exactly that stream, or refuses exactly an oversized line. |
| `SqlSplitter.SplitStatements` | scripts/warehouse_inventory.py:25-71 | The character loop computes the specified split. |
| `SqlSplitter.SplitMeaning` | scripts/warehouse_inventory.py:25-71 | The splitter accepts exactly the texts whose literals and block comments are closed, returns one clean statement for each non-blank group between top-level semicolons, and keeps every symbol and literal of it verbatim. |
| `SqlSplitter.JoinedSplits` | scripts/warehouse_inventory.py:25-71 | Joining any clean statements with semicolons and splitting again gives them back. |
| `SqlSplitter.SplitIsCanonical` | scripts/warehouse_inventory.py:25-71 | For every accepted text, splitting the joined output gives the same list. |
| `SqlSplitter.CopiesClean` | scripts/warehouse_inventory.py:40-66 | A clean statement passes through the loop unchanged. |
| `SqlSplitter.Lockstep` | scripts/warehouse_inventory.py:28-66 | The loop and an independent lexer stay together to the end of the text. |
| `EnvFile.ReadEnv` | scripts/provision_vms.py:76-92 | The reading loop computes the specified entries, or the error of the first bad line, or a missing file. |
| `EnvFile.ReadsAdmissible` | scripts/provision_vms.py:76-92 | Whatever is read has legal, different keys and values that fit on one line without refused characters. |
| `EnvFile.RoundTrip` | scripts/provision_vms.py:76-96 | Parsing the printed text of a dictionary gives it back exactly when its keys and values are admissible. |
| `EnvFile.ReadPrintRead` | scripts/provision_vms.py:76-96 | For every file that can be read, printing and reading again gives the same dictionary. |
| `EnvFile.PrintedIsRead` | scripts/provision_vms.py:95-96 | The printed text reads as the entries in key order. |
| `EnvFile.TextIsCanonical` | scripts/provision_vms.py:95-96 | Two admissible dictionaries have the same text exactly when they are equal, in whatever order they were filled. |
| `EnvFile.QuoteIsLost` | scripts/provision_vms.py:89-90 | A value with a single quote cannot make the round trip. |
| `EnvFile.ReadPrintedLine` | scripts/provision_vms.py:81-91 | A printed line reads as its entry. |
| `EnvFile.SortSorts` | scripts/provision_vms.py:96-96 | Sorting keeps the entries and orders the keys strictly. |
| `PeelSteps.Chain` | dockerizd_bitcoin/src/semantics.rs:230-256 | At most five loaded peels around the root, linked by the largest output really spent; unless the reader left something out, the chain ends only where the pattern ends; no error in a database without faults. |
| `PeelSteps.Backward` | dockerizd_bitcoin/src/semantics.rs:234-243 | At most two steps back, each to the peel whose large output is spent. |
| `PeelSteps.Forward` | dockerizd_bitcoin/src/semantics.rs:244-254 | Steps forward until the limit or the end of the pattern. |
| `PeelSteps.PeelExactly` | dockerizd_bitcoin/src/semantics.rs:47-65 | The detector recognises exactly the single-input transactions with two positive outputs, one at least four times the other and less than the input, and names the large one. |
| `PeelSteps.PeelConserves` | dockerizd_bitcoin/src/semantics.rs:50-65 | Large output, small output and fee add up to the input; the small one is at most a quarter of the large one and a fifth of the input. |
| `PeelSteps.AmountsDecrease` | dockerizd_bitcoin/src/semantics.rs:230-256 | Along a chain amounts strictly decrease and time strictly advances. |
| `PeelSteps.NoRepeats` | dockerizd_bitcoin/src/semantics.rs:230-256 | No transaction occurs twice in a chain. |
| `PeelSteps.Telescopes` | dockerizd_bitcoin/src/semantics.rs:230-256 | Peeled amounts and fees sum to the first input minus the last large output. |
| `PeelChain.CreatorRow` | dockerizd_bitcoin/src/bitcoin/transactions.rs:272-272 | The latest canonical row before the spender that has the output, none missed. |
| `PeelChain.SpenderRow` | dockerizd_bitcoin/src/bitcoin/transactions.rs:308-308 | The earliest later row that spends the output, none missed. |
| `PeelChain.Reader.Load` | dockerizd_bitcoin/src/bitcoin/transactions.rs:96-253 | The only consistent row of the key, remembered within the budget; nothing only over budget; an error only when absent, ambiguous or inconsistent. |
| `PeelChain.Reader.Previous` | dockerizd_bitcoin/src/bitcoin/transactions.rs:254-295 | The transaction whose output this input really spends, with the same value and subject and an earlier place; nothing only when none exists or the budget ends. |
| `PeelChain.Reader.Spender` | dockerizd_bitcoin/src/bitcoin/transactions.rs:296-334 | The transaction and input that really spend this output. |
| `PeelChain.Reader.Bind` | dockerizd_bitcoin/src/bitcoin/transactions.rs:318-333 | A hash alone never connects two occurrences. |
| `PeelChain.PreviousFits` | dockerizd_bitcoin/src/bitcoin/transactions.rs:272-294 | In a database without faults the spent output is there and agrees. |
| `SubjectFlow.Summarize` | dockerizd_bsc/src/semantic.rs:1031-1090 | The loop over the first 256 legs gives exactly the declarative totals, witnesses, recipient and flags, the first 32 assets of each direction, and no sum leaves 512 bits. |
| `FlowText.Report` | dockerizd_bsc/src/semantic.rs:1031-1111 | The summary with its assets and amounts as texts joined by commas. |
| `FlowText.ReportInjective` | dockerizd_bsc/src/semantic.rs:1091-1111 | The texts lose nothing: equal reports come from equal summaries, when asset texts differ and hold no comma. |
| `FlowText.JoinedPieces` | dockerizd_bsc/src/semantic.rs:1021-1028 | A joined text, split at commas without its empty pieces, gives the pieces back, also of an empty list. |
| `FlowText.UniqueMoved` | dockerizd_bsc/src/semantic.rs:1021-1028 | Untruncated, the number of assets counted in the two texts is that of the assets that crossed the boundary, each once even when it crossed both ways. |
| `SubjectFlow.TotalsFit` | dockerizd_bsc/src/semantic.rs:1053-1076 | Every sum over the examined legs stays below 2^264. |
| `SubjectFlow.NeverBoth` | dockerizd_bsc/src/semantic.rs:1054-1070 | No leg is counted both in and out. |
| `SubjectFlow.ExactWhenWhole` | dockerizd_bsc/src/semantic.rs:1083-1111 | Untruncated, an asset is listed with an amount exactly when it moved and that is its total over all legs. |
| `SubjectFlow.OrderIrrelevant` | dockerizd_bsc/src/semantic.rs:1031-1111 | As long as every leg is examined, the summary does not depend on the order of the legs, apart from the recipient. |
| `SubjectFlow.RecipientStable` | dockerizd_bsc/src/semantic.rs:1074-1079 | The recipient of a list of legs is that of every reordering exactly when all legs that leave the protocol go to one receiver. |
| `SubjectFlow.SummaryStable` | dockerizd_bsc/src/semantic.rs:1031-1102 | As long as every leg is examined, the whole summary, recipient included, is the same for every order exactly under that condition. |
| `SubjectFlow.TwoReceivers` | dockerizd_bsc/src/semantic.rs:1074-1079 | Two receivers of one protocol: the recipient is that of the leg that comes first. |
| `SubjectFlow.FlowsConserve` | dockerizd_bsc/src/semantic.rs:1048-1081 | The amounts of all assets together are the amounts of the legs that crossed. |
| `SubjectFlow.TableUnique` | dockerizd_bsc/src/semantic.rs:1104-1111 | An ordered table is determined by its keys and totals. |
| `SubjectFlow.SortedIdsOf` | dockerizd_bsc/src/semantic.rs:1084-1085 | Sorting and removing repetitions keeps exactly the ids. |
| `SnapshotRace.Serializable` | analytical_node/src/store.rs:56-148 | However the steps of exports, cleanups and creations interleave or abort, the store holds what the operations give one after the other in commit order, and every export was answered as it would have been then. A cleanup has the effect of removing what is expired of the nodes it locked; these belong to a batch that a cleanup chose at an earlier point of that order, and what it did not lock of the batch had gone in between. |
| `SnapshotRace.ExportIsForever` | analytical_node/src/store.rs:103-148 | Once an export has succeeded the snapshot is never removed: its owner reads it at any later time with the answered payload. |
| `SnapshotRace.RemovedAfterExpiry` | analytical_node/src/store.rs:127-148 | Only a cleanup commit removes a snapshot, one that holds its lock, was never exported and had expired by that cleanup's clock. |
| `SnapshotRace.ContentsNeverChange` | analytical_node/src/store.rs:56-148 | No step changes owner, payload or creation, or takes a saved mark back. |
| `SnapshotRace.CommitKeeps` | analytical_node/src/store.rs:103-148 | A commit has the effect at that moment of its whole export, or of removing what is expired of the nodes that its cleanup locked. |
| `SnapshotStore.Store.Create` | analytical_node/src/store.rs:56-85 | A new temporary snapshot, unless the id exists. |
| `SnapshotStore.Store.Read` | analytical_node/src/store.rs:87-101 | The owner reads a saved or unexpired snapshot, and nobody else anything. |
| `SnapshotStore.Store.Export` | analytical_node/src/store.rs:103-115 | Nodes and answer of an export that runs alone. |
| `SnapshotStore.Store.Cleanup` | analytical_node/src/store.rs:127-148 | At most ten expired snapshots are removed, those that expired first, all if there are fewer. |
| `SnapshotStore.PickBatch` | analytical_node/src/store.rs:131-133 | The chosen batch. |

## Left out

- Worker: a checkpoint over the size cap is one more write that fails; texts of `lastError`, JSON, file
  permissions and the timers of heartbeats are not modelled. Status and phase texts that the worker never
  writes are one constructor each.
- AnalyticsRuns.AttemptBound: counts one more allowance for each operator retry, because a retry resets attempts.
- Worker: a live worker whose own save failed may hold a job marked running; no claim of at most one running job
  is made.
- Wallet paths: database errors, sorting of the returned edges, `build_nodes` and the Neo4j projection.
- Exposure: the floating-point scores are an arbitrary integer score of a row; amounts and path ids. Entity types
  are read before the model.
- ChronoPaths.FindPath: assumes that block number and transaction index are present in every edge.
- ChronoClosure.ClosedExcludes: is the easily checked sufficient condition; `ChronoClosure.MissesIff` is the exact one.
- Backup: HTTP transport, lock files, JSON, identifier and URL syntax, and the checks of `snapshot` on engines and
  network identity; a snapshot is one reply. The dictionary that `public_status` prints.
- BackupOperator.Operator.RebuildViews: checks on the text of a view definition count as its creation failing.
- ViewOrder: the regular expressions that extract dependencies from view definitions; names are ranks.
- RowDigest: SHA-256 is its input, and the exact amount totals are not modelled.
- EnvFile.ReadEnv: starts from decoded text; the UTF-8 decoding is not modelled.
- PeelChain.Reader.Load: checks of address syntax and of a changed occurrence inside one row are not modelled; the
  rows of a transaction are already ordered by index.
- Peel chains: events, evidence and the other detectors of the file.
- Snapshots: wallets and transfers stored beside a snapshot, listing, and HTTP; a matched snapshot that was removed
  and created again under the same id is taken for the same node.
- Exposure propagation, clustering, risk scoring and activity aggregation, whose logic is SQL text; VM provisioning
  commands; RPC clients; user interface.
