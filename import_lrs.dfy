/**
 * The job class `ImportLrsIncrementals` as the source writes it: methods that
 * call the services one after another and raise at the first failure. Each
 * method is proved to return, and to leave the services in, exactly what the
 * function of the same name in `ImportLrsSpec` computes from the state before
 * the call; the properties of the job are proved about those functions.
 */
module ImportLrs {
  import opened Wrappers
  import opened PyStrings
  import opened LrsServices
  import opened ImportLrsSpec
  import W = LrsWorld

  class ImportLrsIncrementals {
    /** The services the job calls. */
    const world: W.World
    /** The `app.config` entries the job reads. */
    const config: Config
    var transientBucket: string
    var transientPath: string
    /** `self.lrs_statement_count`: None until a run has counted the LRS statements. */
    var lrsStatementCount: Option<int>

    constructor (world: W.World, config: Config)
      ensures this.world == world && this.config == config && lrsStatementCount.None?
    {
      this.world := world;
      this.config := config;
      transientBucket, transientPath := "", "";
      lrsStatementCount := None;
    }

    /**
     * `run(truncate_lrs)`. `stamp` is the clock reading that names the
     * destination folder. The job's count is assigned only when the LRS
     * count succeeds and is otherwise left as it was. The body of the source
     * method is split in two at the count: `Prelude` before it, `Transfer` after.
     */
    method Run(truncate: bool, stamp: string) returns (r: Result<Summary, JobError>)
      modifies this, world
      ensures transientBucket == config.transientBucket && transientPath == config.transientPath
      ensures var s := ImportLrsSpec.Run(old(world.State()), config, truncate, stamp);
        && r == s.outcome && world.State() == s.env
        && lrsStatementCount == if s.statementCount.Some? then s.statementCount else old(lrsStatementCount)
    {
      transientBucket := config.transientBucket;
      transientPath := config.transientPath;
      var counted := Prelude();
      if counted.Err? {
        r := Err(counted.error);
        return;
      }
      lrsStatementCount := Some(counted.value);
      var destinationPath := DestinationPath(config, stamp);
      r := Transfer(truncate, destinationPath);
    }

    /**
     * `run` up to the LRS count: clear the old incrementals, start the
     * replication task, poll it until it stops, and count the LRS statements.
     */
    method Prelude() returns (counted: Result<int, JobError>)
      requires transientBucket == config.transientBucket && transientPath == config.transientPath
      modifies world
      ensures (counted, world.State()) == ImportLrsSpec.Prelude(old(world.State()), config)
    {
      var cleared := DeleteOldIncrementals();
      if cleared.Err? {
        return Err(cleared.error);
      }
      var started := world.StartReplicationTask(config.replicationTaskId);
      if !started {
        return Err(ReplicationStartFailed);
      }
      var waited := WaitForReplication(config.replicationTaskId);
      if waited.Err? {
        return Err(waited.error);
      }
      var lrsResponse := world.LrsFetchCount();
      if lrsResponse == [] {
        return Err(LrsCountUnavailable);
      }
      return Ok(lrsResponse[0]);
    }

    /**
     * The `while True` loop of `run`: poll the task until it reports
     * 'stopped'; only the full-load-finished reason lets the run go on. The
     * ten-second sleep between polls is not modelled, and a status script
     * that runs dry ends the wait.
     */
    method WaitForReplication(taskId: string) returns (waited: Outcome)
      modifies world
      ensures (waited, world.State()) == ImportLrsSpec.WaitForReplication(old(world.State()), taskId)
    {
      ghost var e0 := world.State();
      while true
        invariant ImportLrsSpec.WaitForReplication(world.State(), taskId) == ImportLrsSpec.WaitForReplication(e0, taskId)
        decreases |world.statuses|
      {
        var more := world.HasStatus();
        if !more {
          return Err(ReplicationStillRunning);
        }
        var response := world.GetReplicationTask(taskId);
        if response.status == Some(Stopped) {
          if response.stopReason == Some(FullLoadOnlyFinished) {
            return Ok(());
          }
          return Err(ReplicationStoppedUnexpectedly(response));
        }
      }
    }

    /**
     * `run` after the count: list the transient keys, verify and unload the
     * transient data, migrate to every destination bucket and truncate the
     * LRS table if asked to.
     */
    method Transfer(truncate: bool, destinationPath: string) returns (r: Result<Summary, JobError>)
      requires lrsStatementCount.Some?
      requires transientBucket == config.transientBucket && transientPath == config.transientPath
      modifies world
      ensures var s := ImportLrsSpec.Transfer(old(world.State()), config, truncate, destinationPath, lrsStatementCount.value);
        r == s.outcome && world.State() == s.env
    {
      var transientKeys := world.GetKeysWithPrefix(transientBucket, transientPath);
      if transientKeys.None? || transientKeys.value == [] {
        return Err(TransientKeysUnavailable);
      }
      var keys := transientKeys.value;
      var staged := VerifyAndUnloadTransient();
      if staged.Err? {
        return Err(staged.error);
      }
      var migrated := MigrateToDestinations(keys, destinationPath);
      if migrated.Err? {
        return Err(migrated.error);
      }
      if truncate {
        var truncated := world.LrsTruncate();
        if !truncated {
          return Err(TruncateFailed);
        }
      }
      r := Ok(Summary(lrsStatementCount.value, config.destinationBuckets, destinationPath));
    }

    /**
     * The `for` loop of `run` over the destination buckets: migrate to each
     * in turn; the first failure ends the run.
     */
    method MigrateToDestinations(keys: seq<string>, destinationPath: string) returns (o: Outcome)
      requires lrsStatementCount.Some?
      modifies world
      ensures (o, world.State()) == MigrateAll(old(world.State()), config, transientBucket, transientPath, keys,
                                               config.destinationBuckets, destinationPath, lrsStatementCount.value)
    {
      ghost var e0 := world.State();
      var dests := config.destinationBuckets;
      var i := 0;
      while i < |dests|
        invariant 0 <= i <= |dests|
        invariant MigrateAll(e0, config, transientBucket, transientPath, keys, dests, destinationPath, lrsStatementCount.value)
               == MigrateAll(world.State(), config, transientBucket, transientPath, keys, dests[i..], destinationPath, lrsStatementCount.value)
      {
        o := MigrateTransientToDestination(keys, dests[i], destinationPath);
        assert dests[i..][1..] == dests[i + 1..];
        if o.Err? {
          return;
        }
        i := i + 1;
      }
      return Ok(());
    }

    /** `delete_old_incrementals`: empty the transient area before the replication refills it. */
    method DeleteOldIncrementals() returns (o: Outcome)
      modifies world
      ensures (o, world.State()) == ClearArea(old(world.State()), OldIncrementals, transientBucket, transientPath)
    {
      var oldIncrementals := world.GetKeysWithPrefix(transientBucket, transientPath);
      if oldIncrementals.None? {
        return Err(ListingFailed(OldIncrementals));
      }
      if |oldIncrementals.value| > 0 {
        var deleted := world.DeleteObjects(transientBucket, oldIncrementals.value);
        if !deleted {
          return Err(DeleteFailed(OldIncrementals, transientBucket));
        }
      }
      return Ok(());
    }

    /** `delete_old_unloads`: empty the ETL area of the transient bucket before unloading into it. */
    method DeleteOldUnloads() returns (o: Outcome)
      modifies world
      ensures (o, world.State()) == ClearArea(old(world.State()), OldUnloads, transientBucket, config.etlPathRedshift)
    {
      var oldUnloads := world.GetKeysWithPrefix(transientBucket, config.etlPathRedshift);
      if oldUnloads.None? {
        return Err(ListingFailed(OldUnloads));
      }
      if |oldUnloads.value| > 0 {
        var deleted := world.DeleteObjects(transientBucket, oldUnloads.value);
        if !deleted {
          return Err(DeleteFailed(OldUnloads, transientBucket));
        }
      }
      return Ok(());
    }

    /**
     * `migrate_transient_to_destination`: copy every transient key to the
     * destination bucket under its rewritten name, stopping at the first
     * refused copy, then verify the copy and drop the LRS schema.
     */
    method MigrateTransientToDestination(keys: seq<string>, destinationBucket: string, destinationPath: string) returns (o: Outcome)
      requires lrsStatementCount.Some?
      modifies world
      ensures (o, world.State()) == MigrateToDestination(old(world.State()), config, transientBucket, transientPath, keys,
                                                          destinationBucket, destinationPath, lrsStatementCount.value)
    {
      ghost var e0 := world.State();
      var destinationUrl := "s3://" + destinationBucket + "/" + destinationPath;
      var redshiftSchema := config.redshiftSchemaLrs;
      var i := 0;
      while i < |keys|
        invariant 0 <= i <= |keys|
        invariant CopyKeys(e0, transientBucket, transientPath, keys, destinationBucket, destinationPath)
               == CopyKeys(world.State(), transientBucket, transientPath, keys[i..], destinationBucket, destinationPath)
      {
        var destinationKey := ReplaceAll(keys[i], transientPath, destinationPath);
        var copied := world.CopyObject(ObjKey(transientBucket, keys[i]), ObjKey(destinationBucket, destinationKey));
        assert keys[i..][1..] == keys[i + 1..];
        if !copied {
          assert CopyKeys(e0, transientBucket, transientPath, keys, destinationBucket, destinationPath)
              == (Err(CopyFailed(destinationBucket)), world.State());
          return Err(CopyFailed(destinationBucket));
        }
        i := i + 1;
      }
      assert CopyKeys(e0, transientBucket, transientPath, keys, destinationBucket, destinationPath) == (Ok(()), world.State());
      o := VerifyMigration(destinationUrl, redshiftSchema);
      if o.Err? {
        return;
      }
      world.DropExternalSchema(redshiftSchema);
    }

    /**
     * `unload_to_etl(schema, bucket, timestamped)`: UNLOAD `<schema>.statements`
     * to the ETL path and verify the unloaded count. `stamp` is the clock
     * reading of a timestamped unload.
     */
    method UnloadToEtl(schema: string, bucket: string, timestamped: bool, stamp: string) returns (o: Outcome)
      requires lrsStatementCount.Some?
      modifies world
      ensures (o, world.State()) == ImportLrsSpec.UnloadToEtl(old(world.State()), config, schema, bucket, timestamped, stamp,
                                                               lrsStatementCount.value)
    {
      var s3Url := UnloadUrl(bucket, config.etlPathRedshift, timestamped, stamp);
      var unloaded := world.RedshiftUnload(schema, s3Url);
      if !unloaded {
        return Err(UnloadFailed(s3Url));
      }
      o := VerifyUnloadedCount(s3Url);
    }

    /**
     * `verify_and_unload_transient`: verify the transient data under the
     * transient schema, clear the old unloads, unload without timestamp and
     * drop the transient schema.
     */
    method VerifyAndUnloadTransient() returns (o: Outcome)
      requires lrsStatementCount.Some?
      modifies world
      ensures (o, world.State()) == ImportLrsSpec.VerifyAndUnloadTransient(old(world.State()), config, transientBucket, transientPath,
                                                                            lrsStatementCount.value)
    {
      var transientUrl := "s3://" + transientBucket + "/" + transientPath;
      var transientSchema := TransientSchema(config);
      o := VerifyMigration(transientUrl, transientSchema);
      if o.Err? {
        return;
      }
      o := DeleteOldUnloads();
      if o.Err? {
        return;
      }
      o := UnloadToEtl(transientSchema, transientBucket, false, "");
      if o.Err? {
        return;
      }
      world.DropExternalSchema(transientSchema);
    }

    /**
     * `verify_migration(url, schema)`: recreate the external schema over `url`
     * and compare its statement count with the job's count.
     */
    method VerifyMigration(incrementalUrl: string, incrementalSchema: string) returns (o: Outcome)
      requires lrsStatementCount.Some?
      modifies world
      ensures (o, world.State()) == ImportLrsSpec.VerifyMigration(old(world.State()), incrementalUrl, incrementalSchema,
                                                                   lrsStatementCount.value)
    {
      world.DropExternalSchema(incrementalSchema);
      var created := world.ExecuteDdlScript(StatementsTable, incrementalSchema, incrementalUrl);
      if !created {
        return Err(SchemaCreationFailed(incrementalSchema));
      }
      var response := world.RedshiftFetchCount(incrementalSchema + ".statements");
      if response == [] {
        return Err(CountUnavailable(incrementalSchema));
      }
      var redshiftStatementCount := response[0];
      if redshiftStatementCount != lrsStatementCount.value {
        return Err(CountMismatch(lrsStatementCount.value, redshiftStatementCount, incrementalUrl));
      }
      return Ok(());
    }

    /**
     * `verify_unloaded_count(url)`: create the unloaded-statements table over
     * the directory of `url` and compare its count with the job's count.
     */
    method VerifyUnloadedCount(url: string) returns (o: Outcome)
      requires lrsStatementCount.Some?
      modifies world
      ensures (o, world.State()) == ImportLrsSpec.VerifyUnloadedCount(old(world.State()), config, url, lrsStatementCount.value)
    {
      var dir := PathHead(url);
      var schema := config.redshiftSchemaLrs;
      var created := world.ExecuteDdlScript(UnloadedStatementsTable, schema, dir);
      if !created {
        return Err(UnloadedTableCreationFailed(schema));
      }
      var response := world.RedshiftFetchCount(schema + ".statements_unloaded");
      if response == [] {
        return Err(UnloadedCountUnavailable);
      }
      var unloadedStatementCount := response[0];
      if unloadedStatementCount != lrsStatementCount.value {
        return Err(CountMismatch(lrsStatementCount.value, unloadedStatementCount, dir));
      }
      return Ok(());
    }
  }
}
