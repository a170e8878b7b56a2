/**
 * The Canvas snapshot resync job as the object it is: `Run` reads the
 * failures of the last sync from the ledger and replays them against the
 * services in place, one record per loop iteration.
 */
module Resync {
  import opened Wrappers
  import opened PyStrings
  import opened SnapshotServices
  import opened ResyncSpec
  import W = SnapshotWorld

  class ResyncCanvasSnapshots {
    const world: W.World
    const config: ResyncConfig

    constructor (world: W.World, config: ResyncConfig)
      ensures this.world == world && this.config == config
    {
      this.world := world;
      this.config := config;
    }

    /**
     * `run(cleanup)`, started at `seconds` on a day whose daily snapshot path
     * is `dailyPath`. Returns None when the run is skipped and the two
     * counters it logs otherwise.
     */
    method Run(cleanup: bool, seconds: nat, dailyPath: string) returns (r: Result<Option<Counts>, ResyncError>)
      modifies world
      ensures (r, world.State()) == ResyncRun(old(world.State()), config, cleanup, seconds, dailyPath)
    {
      var jobId := GenerateJobId(seconds);
      var md := world.GetFailuresFromLastSync();
      if md.failures == [] {
        return Ok(None);
      }
      ghost var e1 := world.State();
      var failures, successes := 0, 0;
      var i := 0;
      while i < |md.failures|
        invariant 0 <= i <= |md.failures|
        invariant ResyncLoop(e1, config, jobId, cleanup, dailyPath, md.failures, 0, 0)
               == ResyncLoop(world.State(), config, jobId, cleanup, dailyPath, md.failures[i..], successes, failures)
      {
        assert md.failures[i..][0] == md.failures[i] && md.failures[i..][1..] == md.failures[i + 1..];
        var dispatched := ResyncFailure(jobId, cleanup, dailyPath, md.failures[i]);
        if dispatched.Err? {
          return Err(dispatched.error);
        }
        if dispatched.value {
          successes := successes + 1;
        } else {
          failures := failures + 1;
        }
        i := i + 1;
      }
      return Ok(Some(Counts(successes, failures)));
    }

    /**
     * One iteration of the loop of `run`: the cleanup of `failure`'s stored
     * snapshot, its status row, the dispatch of its resync and, if the
     * dispatch is refused, the error update. The result is whether the
     * dispatch was accepted.
     */
    method ResyncFailure(jobId: string, cleanup: bool, dailyPath: string, failure: Failure) returns (r: Result<bool, ResyncError>)
      modifies world
      ensures (r, world.State()) == ResyncRecord(old(world.State()), config, jobId, cleanup, dailyPath, failure)
    {
      var cleaned := CleanupFailure(cleanup, failure);
      if cleaned.Err? {
        return Err(cleaned.error);
      }
      world.CreateCanvasSyncStatus(StatusEntry(jobId, failure.filename, failure.canvasTable, failure.sourceUrl));
      var keyComponents;
      if failure.canvasTable == RequestsTable {
        keyComponents := [config.currentTermPath, failure.canvasTable, failure.filename];
      } else {
        keyComponents := [dailyPath, failure.canvasTable, failure.filename];
      }
      var key := Join(keyComponents, "/");
      var response := world.DispatchWork(Dispatch(SyncTask, jobId, failure.sourceUrl, key));
      if !response {
        world.UpdateCanvasSyncStatus(StatusUpdate(jobId, key, ErrorStatus));
      }
      return Ok(response);
    }

    /** The cleanup at the head of the loop body: delete the stored snapshot, then its metadata if S3 accepted. */
    method CleanupFailure(cleanup: bool, failure: Failure) returns (r: Result<(), ResyncError>)
      modifies world
      ensures (r, world.State()) == Cleanup(old(world.State()), config, cleanup, failure)
    {
      if cleanup && Truthy(failure.destinationUrl) {
        var parts := Split(failure.destinationUrl.value, config.lochS3Bucket + "/");
        if |parts| < 2 {
          return Err(UrlWithoutBucket(failure.destinationUrl.value));
        }
        var destinationKey := parts[1];
        var deleted := world.DeleteObjects([destinationKey]);
        if deleted {
          world.DeleteCanvasSnapshots([destinationKey]);
        }
      }
      return Ok(());
    }
  }
}
