/**
 * The services the Canvas snapshot resync talks to (the metadata ledger, S3
 * and the dispatcher), as pure functions over one value `Env`. The part of
 * their state the job changes is the set of objects in the loch bucket, the
 * snapshot metadata, and the sync-status rows, updates and dispatches it
 * writes. What the services answer comes from scripts consumed in call
 * order; a script that has run dry answers falsy. Every call is also
 * appended to the log `calls`.
 */
module SnapshotServices {
  import opened Wrappers

  /** One row of the failure ledger: a snapshot that the last sync failed to store. */
  datatype Failure = Failure(filename: string, canvasTable: string, sourceUrl: string, destinationUrl: Option<string>)

  /** What `metadata.get_failures_from_last_sync()` returns: the failed job and its failures. */
  datatype Ledger = Ledger(jobId: string, failures: seq<Failure>)

  /** A sync-status row as `metadata.create_canvas_sync_status` writes it. */
  datatype StatusEntry = StatusEntry(jobId: string, filename: string, canvasTable: string, sourceUrl: string)

  /** A sync-status update as `metadata.update_canvas_sync_status` writes it. */
  datatype StatusUpdate = StatusUpdate(jobId: string, key: string, status: string)

  /** A unit of work handed to `dispatch`: the task name and its data. */
  datatype Dispatch = Dispatch(task: string, canvasSyncJobId: string, url: string, key: string)

  /** One call to a service, with the answer it got. */
  datatype Call =
    | FailuresRead(ledger: Ledger)
    | ObjectsDeleted(keys: seq<string>, ok: bool)
    | SnapshotsDeleted(keys: seq<string>)
    | StatusCreated(entry: StatusEntry)
    | StatusUpdated(update: StatusUpdate)
    | Dispatched(work: Dispatch, ok: bool)

  datatype Env = Env(
    store: set<string>,
    snapshots: set<string>,
    created: seq<StatusEntry>,
    updates: seq<StatusUpdate>,
    dispatches: seq<Dispatch>,
    calls: seq<Call>,
    lastSync: Ledger,
    deleteAcks: seq<bool>,
    dispatchAcks: seq<bool>)

  /** `metadata.get_failures_from_last_sync()`. */
  function GetFailuresFromLastSync(e: Env): (r: (Ledger, Env))
    ensures r.0 == e.lastSync
    ensures r.1 == e.(calls := e.calls + [FailuresRead(e.lastSync)])
  {
    (e.lastSync, e.(calls := e.calls + [FailuresRead(e.lastSync)]))
  }

  /** `s3.delete_objects(keys)` on the loch bucket: on success the objects are gone. */
  function DeleteObjects(e: Env, keys: seq<string>): (r: (bool, Env))
    ensures r.0 == Head(e.deleteAcks)
    ensures r.1 == e.(store := if r.0 then e.store - (set k | k in keys) else e.store,
                      deleteAcks := Rest(e.deleteAcks),
                      calls := e.calls + [ObjectsDeleted(keys, r.0)])
  {
    var ok := Head(e.deleteAcks);
    (ok, e.(store := if ok then e.store - (set k | k in keys) else e.store,
            deleteAcks := Rest(e.deleteAcks),
            calls := e.calls + [ObjectsDeleted(keys, ok)]))
  }

  /** `metadata.delete_canvas_snapshots(keys)`. */
  function DeleteCanvasSnapshots(e: Env, keys: seq<string>): (e': Env)
    ensures e' == e.(snapshots := e.snapshots - (set k | k in keys), calls := e.calls + [SnapshotsDeleted(keys)])
  {
    e.(snapshots := e.snapshots - (set k | k in keys), calls := e.calls + [SnapshotsDeleted(keys)])
  }

  /** `metadata.create_canvas_sync_status(...)`. */
  function CreateCanvasSyncStatus(e: Env, entry: StatusEntry): (e': Env)
    ensures e' == e.(created := e.created + [entry], calls := e.calls + [StatusCreated(entry)])
  {
    e.(created := e.created + [entry], calls := e.calls + [StatusCreated(entry)])
  }

  /** `metadata.update_canvas_sync_status(job_id, key, status, details)`; the details text is not modelled. */
  function UpdateCanvasSyncStatus(e: Env, update: StatusUpdate): (e': Env)
    ensures e' == e.(updates := e.updates + [update], calls := e.calls + [StatusUpdated(update)])
  {
    e.(updates := e.updates + [update], calls := e.calls + [StatusUpdated(update)])
  }

  /** `dispatch(task, data=...)`: the response is truthy or falsy. */
  function DispatchWork(e: Env, work: Dispatch): (r: (bool, Env))
    ensures r.0 == Head(e.dispatchAcks)
    ensures r.1 == e.(dispatches := e.dispatches + [work], dispatchAcks := Rest(e.dispatchAcks),
                      calls := e.calls + [Dispatched(work, r.0)])
  {
    var ok := Head(e.dispatchAcks);
    (ok, e.(dispatches := e.dispatches + [work], dispatchAcks := Rest(e.dispatchAcks),
            calls := e.calls + [Dispatched(work, ok)]))
  }
}
