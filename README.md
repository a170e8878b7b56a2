# nessie background jobs: LRS incremental import and Canvas snapshot resync

This project models two of nessie's background jobs and proves properties of
the models.

- `ImportLrsIncrementals` moves the statements that the DMS replication task
  copies out of the LRS database into the data loch. The run goes stage by
  stage, and every stage either passes or aborts the whole run:
  1. It clears the transient S3 prefix.
  2. It starts the replication task and polls it until the task stops with
     the full-load-finished reason.
  3. It captures the LRS statement count once.
  4. It lists the transient keys.
  5. It verifies the transient data against the count through a Redshift
     external schema.
  6. It clears old unloads, unloads the statements to the ETL path and
     verifies the unloaded count.
  7. It copies every transient key to each destination bucket in turn and
     verifies each destination.
  8. If asked to, it truncates the LRS table.
- `ResyncCanvasSnapshots` replays the failures of the last Canvas snapshot
  sync. For each failure record it does the following:
  1. If cleanup is on, it deletes the stored snapshot and, when S3 accepted
     the delete, its metadata.
  2. It writes one sync-status row under the run's job id.
  3. It rebuilds the destination key.
  4. It dispatches a resync and counts the dispatch as a success or a
     failure. A refused dispatch also gets an error update.

The model is laid out like this:

- The services are pure functions over one value `Env`, in
  `lrs_services.dfy` and `snapshot_services.dfy`:
  - S3, Redshift, DMS and the LRS database for the import;
  - the metadata ledger, S3 and the dispatcher for the resync.
  - `Env` holds the state the jobs change: S3 objects, external schemas,
    snapshot metadata, status rows and dispatches. It also holds the log of
    calls made. Its S3 objects are the keys the jobs themselves delete and
    copy; S3 listings are scripted answers, not read from that set.
  - Each service's answers come from a script of answers, consumed in call
    order. A script that has run dry answers falsy.
- `lrs_world.dfy` and `snapshot_world.dfy` wrap these functions in a mutable
  `World` object.
- The jobs are classes, in `import_lrs.dfy` and `resync.dfy`. Their
  methods call the world step by step, with the loops of the source, and
  are proved to return, and to leave the world in, exactly what a
  specification function gives.
- The specification functions and the lemmas about them are in
  `import_lrs_spec.dfy` and `resync_spec.dfy`.
- The Python string operations the jobs depend on are in `py_strings.dfy`:
  - `str.replace` replaces every occurrence;
  - `str.split(sep)[1]` is the piece between the first and second
    occurrence;
  - `os.path.split` gives a head with trailing slashes removed;
  - `str(int)` writes a decimal number.

In these places the code behaves differently from what a reader of the
resync job might expect. The model follows the code:

- A failure record whose `destination_url` does not contain
  `LOCH_S3_BUCKET + '/'` makes the `split(...)[1]` at
  `nessie/jobs/resync_canvas_snapshots.py:59` raise `IndexError`. That ends
  the whole resync run. Records are not independent, and the
  `successes + failures == len(failures)` balance only holds for runs that
  do not raise. `ResyncSpec.ResyncLoopOutcome` states exactly when a run
  raises.
- The deletion key is the piece between the first occurrence of the bucket
  separator and the next one, not the whole rest of the URL
  (`ResyncSpec.DeletionKeyOf`).
- The resync run returns nothing. Its two counters are only logged. The
  model returns them as the outcome (`None` when the run is skipped).

## Model

| member | source | states |
|---|---|---|
| ImportLrsSpec.ClearArea | nessie/jobs/import_lrs_incrementals.py:94-114 | A failed listing aborts with the area's listing error. An empty listing succeeds with no delete. A non-empty listing is deleted in one batch, and a refused delete aborts. On success exactly the listed objects of the bucket are gone and the log holds the listing and the delete. On failure no object is removed. No schema, status, count or tally changes. |
| ImportLrsSpec.ClearAreaTwice | nessie/jobs/import_lrs_incrementals.py:94-103 | Clearing is safe to repeat. If the listings match the store, clearing an area that was just cleared lists nothing, deletes nothing and succeeds. |
| ImportLrsSpec.ClearedAreaEmpty | nessie/jobs/import_lrs_incrementals.py:98-99 | Deleting every key that a faithful listing returned leaves no key under the prefix. |
| ImportLrsSpec.WaitForReplication | nessie/jobs/import_lrs_incrementals.py:53-61 | The wait touches only the status script, the log and the poll count. It counts one poll per status answer consumed. |
| ImportLrsSpec.WaitForReplicationOutcome | nessie/jobs/import_lrs_incrementals.py:53-61 | The wait succeeds exactly when the first 'stopped' answer has the reason 'Stop Reason FULL_LOAD_ONLY_FINISHED'. 'stopped' with any other reason aborts with that answer. Every other status, failures included, leads to another poll. |
| ImportLrsSpec.WaitForReplicationRest | nessie/jobs/import_lrs_incrementals.py:53-61 | The wait consumes status answers exactly up to and including the first 'stopped' one. |
| ImportLrsSpec.WaitForReplicationPolls | nessie/jobs/import_lrs_incrementals.py:53-61 | The wait logs one poll of the task per answer it consumes, in order, and no other call. |
| ImportLrsSpec.VerifyMigration | nessie/jobs/import_lrs_incrementals.py:159-182 | The schema is dropped before it is recreated over the URL. The check succeeds exactly when the DDL is accepted and the first count row equals the captured count. A refused DDL, an empty count or a different count aborts with its own error. On success the log is drop, create, count, in that order. |
| ImportLrsSpec.VerifyUnloadedCount | nessie/jobs/import_lrs_incrementals.py:184-208 | The unloaded table is created over the parent directory of the URL (`os.path.split(url)[0]`). The check succeeds exactly when the table is created and its count equals the captured count. Otherwise it aborts. An accepted DDL leaves the LRS schema in place; nothing else is touched but the scripts, the log and the tally. |
| ImportLrsSpec.UnloadUrl | nessie/jobs/import_lrs_incrementals.py:127-132 | The UNLOAD target: the ETL path under the bucket, then either `/statements` or `/` and the timestamped name. It has no contract of its own. `UnloadDirectory` and `UnloadDirectoryTimestamped` state which directory its count is read over. |
| ImportLrsSpec.UnloadDirectory | nessie/jobs/import_lrs_incrementals.py:127-132 | The unload `run` makes (not timestamped, line 156) writes `s3://bucket/<ETL path>/statements`. The count check reads its parent directory, `s3://bucket/<ETL path>` with trailing slashes removed. |
| ImportLrsSpec.UnloadDirectoryTimestamped | nessie/jobs/import_lrs_incrementals.py:127-132 | A timestamped unload writes `<ETL path>/<day>/<name>`. Its count is read over `s3://bucket/<ETL path>/<day>`, the day's directory, not over the ETL path. |
| ImportLrsSpec.UnloadToEtl | nessie/jobs/import_lrs_incrementals.py:127-149 | A refused UNLOAD aborts with its URL and counts nothing. A successful one is followed by the unloaded-count check over the URL's directory. It deletes and copies no object, and touches no listing or status. The schemas gain the LRS schema exactly when both the UNLOAD and the unloaded-table DDL were accepted. |
| ImportLrsSpec.VerifyAndUnloadTransient | nessie/jobs/import_lrs_incrementals.py:151-157 | The transient stage copies, truncates and polls nothing. On success it has deleted the listed old unloads, unloaded once, read two counts equal to the captured one, and dropped the transient schema. The LRS schema is then in place, because the unloaded table was created in it. |
| ImportLrsSpec.UnloadTransient | nessie/jobs/import_lrs_incrementals.py:155-157 | After the transient check, clearing old unloads, unloading and dropping the transient schema have the same effects as the whole stage, minus the first check. |
| ImportLrsSpec.UnloadAndDrop | nessie/jobs/import_lrs_incrementals.py:156-157 | The unload followed by the drop of the transient schema unloads exactly once. It deletes and copies no object, and touches no listing or status. On success the LRS schema is in place, the transient schema is gone, and one count equal to the captured one was read. |
| ImportLrsSpec.UnloadTransientLog | nessie/jobs/import_lrs_incrementals.py:155-157 | A successful unload step logs the clearing, then the UNLOAD, the unloaded-table DDL and count, and last the schema drop. |
| ImportLrsSpec.TransientStageLog | nessie/jobs/import_lrs_incrementals.py:151-157 | A successful transient stage calls the services in this order: drop, create and count the transient schema; clear old unloads; unload; create and count the unloaded table; drop the transient schema. |
| ImportLrsSpec.TransientCounts | nessie/jobs/import_lrs_incrementals.py:151-157 | A successful transient stage read two counts, and both first rows equal the captured count. |
| PyStrings.ReplaceAll | nessie/jobs/import_lrs_incrementals.py:121 | `str.replace` leaves a key without the pattern unchanged, and a key starting with the pattern now starts with the replacement. |
| PyStrings.ReplaceLeading | nessie/jobs/import_lrs_incrementals.py:121 | A transient key `<transient path><rest>` with no other occurrence of the path becomes `<destination path><rest>`. |
| PyStrings.ReplaceIsJoinSplit | nessie/jobs/import_lrs_incrementals.py:121 | For any key and any non-empty transient path, the rewrite equals joining the pieces of the key split on that path with the destination path: Python's `s.replace(p, r) == r.join(s.split(p))`. So every occurrence is replaced, not only a leading one. |
| ImportLrsSpec.Rewrites | nessie/jobs/import_lrs_incrementals.py:120-121 | One destination object per transient key, so as many as there are keys. `RewritesAt` states what each one is. |
| ImportLrsSpec.RewritesAt | nessie/jobs/import_lrs_incrementals.py:120-121 | The i-th destination object is in the destination bucket, named by the i-th transient key with the transient path replaced by the destination path. |
| ImportLrsSpec.CopyKeys | nessie/jobs/import_lrs_incrementals.py:120-123 | The copy loop changes only objects, acknowledgements, the log and the copies counted. It makes between none and all of the copies, and a refused copy aborts with the destination bucket. |
| ImportLrsSpec.CopyKeysCopies | nessie/jobs/import_lrs_incrementals.py:120-123 | The copies the loop attempts are the first ones of the rewritten key list, in order: all of them on success, at least the refused one on failure. |
| ImportLrsSpec.CopyKeysStore | nessie/jobs/import_lrs_incrementals.py:120-123 | After the loop the store holds every copy made before a refusal, and all of them on success; the refused copy is not added. |
| ImportLrsSpec.CopyKeysEffect | nessie/jobs/import_lrs_incrementals.py:120-123 | The copies attempted are the first ones of the rewritten key list, in order. On success all were made. On failure every copy before the refused one stays in place. |
| ImportLrsSpec.MigrateToDestination | nessie/jobs/import_lrs_incrementals.py:116-125 | Migrating to one bucket never lists, polls, unloads or truncates. A failed copy skips the verification and the schema drop. |
| ImportLrsSpec.MigrateToDestinationCopies | nessie/jobs/import_lrs_incrementals.py:116-125 | One destination receives a prefix of its rewritten keys. It receives all of them unless a copy was refused. |
| ImportLrsSpec.MigrateToDestinationSuccess | nessie/jobs/import_lrs_incrementals.py:116-125 | A destination that succeeds holds every copy. Its schema was created once and dropped twice, its count matched the captured one, and the LRS schema is gone afterwards. |
| ImportLrsSpec.Planned | nessie/jobs/import_lrs_incrementals.py:76-81 | The copies of a whole run, destination by destination: `|dests| * |keys|` of them. `MigrateAllCopies`, `MigrateAllSuccess` and `MigrateAllFailure` state how the destination loop follows it. |
| ImportLrsSpec.MigrateAll | nessie/jobs/import_lrs_incrementals.py:76-81 | The destination loop never lists, polls, unloads or truncates. |
| ImportLrsSpec.MigrateAllCopies | nessie/jobs/import_lrs_incrementals.py:76-81 | The copies of the destination loop are a prefix of the plan, taken destination by destination in configured order and key by key. |
| ImportLrsSpec.MigrateAllFailure | nessie/jobs/import_lrs_incrementals.py:76-81 | When the loop fails, it failed at some destination `k`. The destinations before `k` were each migrated in full: copies, schema and count check, then the schema dropped. The failing migration started from that state, and no later destination was touched. |
| ImportLrsSpec.MigrateAllSuccess | nessie/jobs/import_lrs_incrementals.py:76-81 | When the loop succeeds, the whole plan is in the store and every destination was verified against the captured count. |
| ImportLrsSpec.Prelude | nessie/jobs/import_lrs_incrementals.py:40-67 | Before the count no schema changes and only polls are counted. The captured count is the first row of the first count answer, and an empty answer aborts. |
| ImportLrsSpec.PreludeStore | nessie/jobs/import_lrs_incrementals.py:47 | A prelude that gets its count has removed exactly the old incrementals of the first listing. |
| ImportLrsSpec.PreludeWait | nessie/jobs/import_lrs_incrementals.py:49-61 | A prelude that gets its count polled exactly up to the first 'stopped' answer, and that answer has the full-load-finished reason. |
| ImportLrsSpec.StartGate | nessie/jobs/import_lrs_incrementals.py:49-51 | A refused start of the replication task ends the run right after the clearing. The only thing logged after the clearing is the start, so nothing is polled, counted, copied, unloaded or truncated. |
| ImportLrsSpec.KeysGate | nessie/jobs/import_lrs_incrementals.py:69-71 | A failed or empty listing of the transient keys ends the run with only the listing logged, before any verification, unload or copy. |
| ImportLrsSpec.Run | nessie/jobs/import_lrs_incrementals.py:40-92 | A run that never gets a count fails without touching any schema. A run that gets one records the first row of the first count answer as `lrs_statement_count`. |
| ImportLrsSpec.Transfer | nessie/jobs/import_lrs_incrementals.py:69-92 | After the count, the run reports the captured count, the configured buckets and the destination path on success. |
| ImportLrsSpec.Conclude | nessie/jobs/import_lrs_incrementals.py:76-87 | The end of the run truncates at most once, and only if asked to. |
| ImportLrsSpec.ConcludeSuccess | nessie/jobs/import_lrs_incrementals.py:76-87 | A successful end made every planned copy, verified each destination once, and truncated once exactly when asked to. |
| ImportLrsSpec.ConcludeStore | nessie/jobs/import_lrs_incrementals.py:76-87 | After a successful end every planned copy exists, and the LRS schema is gone if there was a destination. |
| ImportLrsSpec.ConcludeCopies | nessie/jobs/import_lrs_incrementals.py:76-81 | The end copies a prefix of the plan, whatever its outcome. |
| ImportLrsSpec.ConcludeTruncation | nessie/jobs/import_lrs_incrementals.py:83-87 | The LRS table is truncated exactly when `truncate_lrs` is set and every destination succeeded. The truncation is then the last call, and its answer decides the outcome. |
| ImportLrsSpec.ConcludeTruncationAfter | nessie/jobs/import_lrs_incrementals.py:76-87 | If the end of the run truncates, every planned copy was made first and the store holds it. One DDL ran per destination, and each destination's count read equalled the captured count. |
| ImportLrsSpec.Deliver | nessie/jobs/import_lrs_incrementals.py:72-87 | Delivery keeps `lrs_statement_count` at the captured count. On success it reports that count, the destination buckets and the destination path. The `Deliver*` lemma rows below state its effects. |
| ImportLrsSpec.DeliverSuccess | nessie/jobs/import_lrs_incrementals.py:72-87 | A successful delivery made every planned copy, unloaded once, and truncated once exactly when asked to. |
| ImportLrsSpec.DeliverChecks | nessie/jobs/import_lrs_incrementals.py:72-87 | A successful delivery created two schemas for the transient stage and one per destination, with as many count reads, all equal to the captured count. It polled nothing. |
| ImportLrsSpec.DeliverStore | nessie/jobs/import_lrs_incrementals.py:72-87 | A successful delivery removed the listed old unloads and added every planned copy. |
| ImportLrsSpec.DeliverSchemas | nessie/jobs/import_lrs_incrementals.py:72-87 | A successful delivery leaves the transient schema dropped. The LRS schema is dropped too if there was a destination; with none it is left in place by the unloaded-count check. |
| ImportLrsSpec.DeliverCopies | nessie/jobs/import_lrs_incrementals.py:72-81 | A delivery copies a prefix of the plan, whatever its outcome. |
| ImportLrsSpec.DeliverGate | nessie/jobs/import_lrs_incrementals.py:72-81 | No copy happens unless `verify_and_unload_transient` returned normally (both DDLs accepted, old unloads cleared, unload made, transient schema dropped). Both of its counts then equal the captured one, and there was one unload. |
| ImportLrsSpec.DeliverTruncation | nessie/jobs/import_lrs_incrementals.py:83-87 | A delivery truncates at most once and only when asked to. The truncation is the last call and decides the outcome. |
| ImportLrsSpec.DeliverTruncationAfter | nessie/jobs/import_lrs_incrementals.py:72-87 | If a delivery truncates, the following all happened first. The transient stage returned normally. Every planned copy was made, and the store is the old one minus the listed old unloads plus the planned copies. One DDL ran for each of the two transient checks and one per destination. Every count read (two for the transient stage, one per destination) equalled the captured count. |
| ImportLrsSpec.RunSuccess | nessie/jobs/import_lrs_incrementals.py:40-92 | A successful run reports the captured count. It copied every key of the second listing to every destination in order, unloaded once, and truncated once exactly when asked to. |
| ImportLrsSpec.RunChecks | nessie/jobs/import_lrs_incrementals.py:40-92 | A successful run polled exactly up to the first 'stopped' answer. It verified the transient data, the unload and every destination against the captured count. |
| ImportLrsSpec.RunStore | nessie/jobs/import_lrs_incrementals.py:40-92 | A successful run removed the old incrementals (first listing) and the old unloads (third listing), and every planned copy exists. |
| ImportLrsSpec.TransferStore | nessie/jobs/import_lrs_incrementals.py:69-92 | After the count, a successful run removes the listed old unloads and adds every planned copy. |
| ImportLrsSpec.RunSchemas | nessie/jobs/import_lrs_incrementals.py:40-92 | A successful run drops the transient schema. The LRS schema is dropped too if there was a destination; with none it is left in place by the unloaded-count check. |
| ImportLrsSpec.RunCopies | nessie/jobs/import_lrs_incrementals.py:72-81 | The copies of any run are a prefix of the plan built from the keys listed after the count. |
| ImportLrsSpec.RunGate | nessie/jobs/import_lrs_incrementals.py:63-81 | A run copies nothing unless three things held. The count was captured, as the first row of the first count answer. The transient listing was non-empty. The transient stage returned normally on the state it started from. The transient data and the unload were then both counted equal to the captured count, and the run unloaded once. |
| ImportLrsSpec.RunTruncation | nessie/jobs/import_lrs_incrementals.py:83-87 | A run truncates at most once and only when asked to. The truncation is then the last call and decides the outcome. |
| ImportLrsSpec.RunTruncationAfter | nessie/jobs/import_lrs_incrementals.py:40-87 | If a run truncates, the following all happened first. The count was captured as the first row of the first count answer. Every count read after it equalled that count: the transient data, the unload and each destination. Every planned copy of the second listing's keys was made. The store is the old one minus the first and third listings' objects plus the planned copies. |
| ImportLrs.ImportLrsIncrementals.Run | nessie/jobs/import_lrs_incrementals.py:40-92 | `run` sets the transient fields from the configuration. Its outcome, the services afterwards and `lrs_statement_count` are those of `ImportLrsSpec.Run`. |
| ImportLrs.ImportLrsIncrementals.Prelude | nessie/jobs/import_lrs_incrementals.py:40-67 | The steps of `run` up to the count have the effect of `ImportLrsSpec.Prelude`. |
| ImportLrs.ImportLrsIncrementals.WaitForReplication | nessie/jobs/import_lrs_incrementals.py:53-61 | The polling loop has the effect of `ImportLrsSpec.WaitForReplication`. |
| ImportLrs.ImportLrsIncrementals.Transfer | nessie/jobs/import_lrs_incrementals.py:69-92 | The steps of `run` after the count have the effect of `ImportLrsSpec.Transfer`. |
| ImportLrs.ImportLrsIncrementals.MigrateToDestinations | nessie/jobs/import_lrs_incrementals.py:76-81 | The loop over destination buckets has the effect of `ImportLrsSpec.MigrateAll`. |
| ImportLrs.ImportLrsIncrementals.DeleteOldIncrementals | nessie/jobs/import_lrs_incrementals.py:94-103 | `delete_old_incrementals` has the effect of `ImportLrsSpec.ClearArea` on the transient prefix. |
| ImportLrs.ImportLrsIncrementals.DeleteOldUnloads | nessie/jobs/import_lrs_incrementals.py:105-114 | `delete_old_unloads` has the effect of `ImportLrsSpec.ClearArea` on the ETL path of the transient bucket. |
| ImportLrs.ImportLrsIncrementals.MigrateTransientToDestination | nessie/jobs/import_lrs_incrementals.py:116-125 | The copy loop, verification and drop have the effect of `ImportLrsSpec.MigrateToDestination`. |
| ImportLrs.ImportLrsIncrementals.UnloadToEtl | nessie/jobs/import_lrs_incrementals.py:127-149 | `unload_to_etl` has the effect of `ImportLrsSpec.UnloadToEtl`. |
| ImportLrs.ImportLrsIncrementals.VerifyAndUnloadTransient | nessie/jobs/import_lrs_incrementals.py:151-157 | `verify_and_unload_transient` has the effect of `ImportLrsSpec.VerifyAndUnloadTransient`. |
| ImportLrs.ImportLrsIncrementals.VerifyMigration | nessie/jobs/import_lrs_incrementals.py:159-182 | `verify_migration` has the effect of `ImportLrsSpec.VerifyMigration` against `lrs_statement_count`. |
| ImportLrs.ImportLrsIncrementals.VerifyUnloadedCount | nessie/jobs/import_lrs_incrementals.py:184-208 | `verify_unloaded_count` has the effect of `ImportLrsSpec.VerifyUnloadedCount` against `lrs_statement_count`. |
| ResyncSpec.GenerateJobId | nessie/jobs/resync_canvas_snapshots.py:39-40 | The job id is `resync_` followed by one or more decimal digits. `JobIdRoundTrip` and `JobIdInjective` state that the seconds can be read back and that distinct seconds give distinct ids. |
| ResyncSpec.JobIdRoundTrip | nessie/jobs/resync_canvas_snapshots.py:39-40 | A job id is 'resync_' followed by the decimal seconds, and reading the number back gives those seconds. |
| ResyncSpec.JobIdInjective | nessie/jobs/resync_canvas_snapshots.py:39-40 | Runs started in different seconds get different job ids. |
| ResyncSpec.SplitHasSecondPiece | nessie/jobs/resync_canvas_snapshots.py:59 | `s.split(sep)` has a second piece exactly when `sep` occurs in `s`. |
| ResyncSpec.DeletionKey | nessie/jobs/resync_canvas_snapshots.py:59 | It has no contract of its own. `DeletionKeyDefined` states when the second piece of the split exists, and `DeletionKeyOf` states what it is. |
| ResyncSpec.DeletionKeyDefined | nessie/jobs/resync_canvas_snapshots.py:59 | The deletion key exists, so the `[1]` does not raise, exactly when the URL contains the bucket followed by '/'. |
| ResyncSpec.DeletionKeyOf | nessie/jobs/resync_canvas_snapshots.py:59 | The deletion key is the piece after the first occurrence of the bucket followed by '/', up to the next occurrence. |
| ResyncSpec.RegeneratedKey | nessie/jobs/resync_canvas_snapshots.py:73-78 | It has no contract of its own. `RegeneratedKeyShape` states the key it builds for each branch. |
| ResyncSpec.RegeneratedKeyShape | nessie/jobs/resync_canvas_snapshots.py:73-78 | The regenerated key is prefix + '/' + table + '/' + filename. The prefix is the current-term path exactly when the table is 'requests', and the daily path otherwise. |
| ResyncSpec.Cleanup | nessie/jobs/resync_canvas_snapshots.py:58-63 | Cleanup touches no status row, update, dispatch, dispatch answer or ledger. |
| ResyncSpec.ResyncRecord | nessie/jobs/resync_canvas_snapshots.py:58-87 | One record leaves the last-sync metadata it was read from unchanged. `ResyncRecordOutcome`, `ResyncRecordWrites`, `ResyncRecordCleanup` and `ResyncRecordLog` state the rest. |
| ResyncSpec.ResyncRecordOutcome | nessie/jobs/resync_canvas_snapshots.py:57-87 | A record raises exactly when cleanup is on, it has a URL, and the URL lacks the bucket. Nothing is then written. Otherwise the record's result is the dispatcher's answer. |
| ResyncSpec.ResyncRecordWrites | nessie/jobs/resync_canvas_snapshots.py:64-87 | A record that does not raise writes one status row and dispatches one unit of work for the regenerated key, both with the job id and the record's file name, table and source URL. It writes an 'error' update for that key exactly when the dispatch answer is falsy. |
| ResyncSpec.ResyncRecordCleanup | nessie/jobs/resync_canvas_snapshots.py:58-63 | A delete is attempted only when cleanup is on and the URL is truthy. The object named by the deletion key is removed, and its snapshot metadata is deleted only if S3 accepted. Nothing else is removed. |
| ResyncSpec.ResyncRecordLog | nessie/jobs/resync_canvas_snapshots.py:57-87 | A record logs its calls in this order: the delete, then the metadata purge if accepted, then the status row, the dispatch, and the error update if refused. |
| ResyncSpec.ResyncLoop | nessie/jobs/resync_canvas_snapshots.py:57-87 | The loop leaves the last-sync metadata unchanged. `ResyncLoopOutcome`, `Processed`, `ResyncLoopCreates`, `ResyncLoopDispatches`, `ResyncLoopErrorUpdates` and `ResyncLoopWithoutCleanup` state the rest. |
| ResyncSpec.ResyncLoopOutcome | nessie/jobs/resync_canvas_snapshots.py:54-87 | The loop raises exactly when some record raises, with the URL of the first such record. Otherwise every record adds one to exactly one counter, and the failures are the falsy dispatch answers. |
| ResyncSpec.Processed | nessie/jobs/resync_canvas_snapshots.py:57-87 | The records the loop gets through are those before the first one that raises. |
| ResyncSpec.ResyncLoopCreates | nessie/jobs/resync_canvas_snapshots.py:64-71 | The loop writes one status row per processed record, in record order, all under the one job id. |
| ResyncSpec.ResyncLoopDispatches | nessie/jobs/resync_canvas_snapshots.py:73-79 | The loop dispatches one unit of work per processed record, in order, for its regenerated key. |
| ResyncSpec.ResyncLoopErrorUpdates | nessie/jobs/resync_canvas_snapshots.py:79-87 | The loop's 'error' updates are exactly those of the records whose dispatch answer was falsy, for their keys. Their number is the failure count. |
| ResyncSpec.ResyncLoopWithoutCleanup | nessie/jobs/resync_canvas_snapshots.py:58-63 | Without cleanup the loop deletes nothing and never raises. |
| ResyncSpec.ResyncRun | nessie/jobs/resync_canvas_snapshots.py:45-89 | The run leaves the last-sync metadata unchanged. `ResyncRunEmpty`, `ResyncRunOutcome`, `ResyncRunWrites` and `ResyncRunWithoutCleanup` state the rest. |
| ResyncSpec.ResyncRunEmpty | nessie/jobs/resync_canvas_snapshots.py:48-51 | An empty failure list is only read. Nothing is deleted, written or dispatched, and the run is skipped. |
| ResyncSpec.ResyncRunOutcome | nessie/jobs/resync_canvas_snapshots.py:54-89 | A run over a non-empty list fails exactly when some record raises. Otherwise successes + failures equals the number of records, and the failures are the falsy dispatch answers. |
| ResyncSpec.ResyncRunWrites | nessie/jobs/resync_canvas_snapshots.py:46-87 | Every status row, dispatch and error update of a run carries the job id made from its start time. |
| ResyncSpec.ResyncRunWithoutCleanup | nessie/jobs/resync_canvas_snapshots.py:45-63 | A run with cleanup off deletes no object or metadata and never raises. |
| Resync.ResyncCanvasSnapshots.Run | nessie/jobs/resync_canvas_snapshots.py:45-89 | `run` with its loop and two counters has the outcome and effect of `ResyncSpec.ResyncRun`. |
| Resync.ResyncCanvasSnapshots.ResyncFailure | nessie/jobs/resync_canvas_snapshots.py:57-87 | The loop body for one record has the effect of `ResyncSpec.ResyncRecord`. |
| Resync.ResyncCanvasSnapshots.CleanupFailure | nessie/jobs/resync_canvas_snapshots.py:58-63 | The cleanup at the head of the loop body has the effect of `ResyncSpec.Cleanup`. |

## Left out

- The services are not called. S3, Redshift, DMS, the LRS database, the metadata ledger and the dispatcher are scripted answers over a set of object keys, a set of schemas and logs of writes. Object contents are not modelled, only which keys exist.
- Exceptions raised inside a service call (network errors) are not modelled. Only falsy answers are.
- `RedshiftUnload`, `StartReplicationTask`, `CopyObject`: the objects written by the replication task (the transient files that import_lrs_incrementals.py:69 lists and :122 copies) and by the UNLOAD (import_lrs_incrementals.py:135-148, the files under `<ETL path>/statements`) are not added to the model's store. S3 listings are scripted separately from the store, and `CopyObject` does not require its source to be in the store. So the store equations and "touches no object" clauses of `UnloadToEtl`, `UnloadAndDrop`, `UnloadTransient`, `VerifyAndUnloadTransient`, `DeliverStore`, `TransferStore`, `RunStore`, `ConcludeTruncationAfter`, `DeliverTruncationAfter` and `RunTruncationAfter` account only for the job's own deletes and copies.
- `TaskStatus`: `dms.get_replication_task` is taken to always return a status record. A None answer is not modelled, so `TaskStatus` has no value for it. On such an answer the `response.get('Status')` call at import_lrs_incrementals.py:55 would raise AttributeError.
- `ClearArea`: "on failure no object is removed" is a property of the scripted `DeleteObjects`, where a refused delete removes nothing. The job's code (import_lrs_incrementals.py:98-101 and :108-111) does not guarantee it. A batch delete that removes some keys and then reports failure is not modelled.
- `sleep(10)` and the wall clock of the poll loop are not modelled. The source polls without bound. The model consumes a finite status script, and a script that runs dry without a 'stopped' answer ends the wait with `ReplicationStillRunning`, a state the source never leaves.
- `datetime.now()`, `localize_datetime` and `strftime` are not modelled. The timestamp strings are parameters (`stamp`).
- `time.time()` is not modelled. The job id takes the whole seconds as a natural number.
- SQL text, `resolve_sql_template`, the UNLOAD options and the IAM role are not modelled. Only each statement's acknowledgement and the counts returned matter. The two DDL templates are named by `DdlTemplate`. The template files are not part of this model. An accepted DDL from either template is taken to leave its schema in place: the unloaded-statements template must create the LRS schema, because `run` drops that schema after every destination (import_lrs_incrementals.py:125) and the next run creates the unloaded table in it (:186-192) before any destination recreates it. The `schemas` clauses of `VerifyUnloadedCount`, `UnloadToEtl`, `VerifyAndUnloadTransient`, `UnloadTransient`, `UnloadAndDrop`, `DeliverSchemas` and `RunSchemas` rest on this.
- `redshift_response[0].get('count')` returning None for a row without a `count` column is not modelled. Count rows are integers.
- `app.logger` messages, the text of each `BackgroundJobError` and the formatted summary string are not modelled. Errors are `JobError` constructors with their data, and the summary is a `Summary` value.
- `get_s3_canvas_daily_path` is not part of this model. The daily path is one parameter per run, although the source reads it again for each non-'requests' record.
- `BackgroundJob` is not part of this model.
- The `details` text of `update_canvas_sync_status` is not modelled.
- `Resync.ResyncCanvasSnapshots.Run`: the source returns None and only logs the counters. The model returns them.
