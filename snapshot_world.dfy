/**
 * The services of `SnapshotServices` as one mutable object, the form in which
 * the resync job calls them: each method performs one service call and
 * updates the stored objects, the snapshot metadata, the status rows, the
 * dispatches, the call log and the scripts in place.
 */
module SnapshotWorld {
  import S = SnapshotServices

  class World {
    var store: set<string>
    var snapshots: set<string>
    var created: seq<S.StatusEntry>
    var updates: seq<S.StatusUpdate>
    var dispatches: seq<S.Dispatch>
    var calls: seq<S.Call>
    var lastSync: S.Ledger
    var deleteAcks: seq<bool>
    var dispatchAcks: seq<bool>

    /** The whole state as a value. */
    function State(): S.Env
      reads this
    {
      S.Env(store, snapshots, created, updates, dispatches, calls, lastSync, deleteAcks, dispatchAcks)
    }

    constructor (e: S.Env)
      ensures State() == e
    {
      store, snapshots, created, updates, dispatches := e.store, e.snapshots, e.created, e.updates, e.dispatches;
      calls, lastSync, deleteAcks, dispatchAcks := e.calls, e.lastSync, e.deleteAcks, e.dispatchAcks;
    }

    method Install(e: S.Env)
      modifies this
      ensures State() == e
    {
      store, snapshots, created, updates, dispatches := e.store, e.snapshots, e.created, e.updates, e.dispatches;
      calls, lastSync, deleteAcks, dispatchAcks := e.calls, e.lastSync, e.deleteAcks, e.dispatchAcks;
    }

    method GetFailuresFromLastSync() returns (ledger: S.Ledger)
      modifies this
      ensures (ledger, State()) == S.GetFailuresFromLastSync(old(State()))
    {
      var res := S.GetFailuresFromLastSync(State());
      ledger := res.0;
      Install(res.1);
    }

    method DeleteObjects(keys: seq<string>) returns (ok: bool)
      modifies this
      ensures (ok, State()) == S.DeleteObjects(old(State()), keys)
    {
      var res := S.DeleteObjects(State(), keys);
      ok := res.0;
      Install(res.1);
    }

    method DeleteCanvasSnapshots(keys: seq<string>)
      modifies this
      ensures State() == S.DeleteCanvasSnapshots(old(State()), keys)
    {
      Install(S.DeleteCanvasSnapshots(State(), keys));
    }

    method CreateCanvasSyncStatus(entry: S.StatusEntry)
      modifies this
      ensures State() == S.CreateCanvasSyncStatus(old(State()), entry)
    {
      Install(S.CreateCanvasSyncStatus(State(), entry));
    }

    method UpdateCanvasSyncStatus(update: S.StatusUpdate)
      modifies this
      ensures State() == S.UpdateCanvasSyncStatus(old(State()), update)
    {
      Install(S.UpdateCanvasSyncStatus(State(), update));
    }

    method DispatchWork(work: S.Dispatch) returns (ok: bool)
      modifies this
      ensures (ok, State()) == S.DispatchWork(old(State()), work)
    {
      var res := S.DispatchWork(State(), work);
      ok := res.0;
      Install(res.1);
    }
  }
}
