/**
 * The services of `LrsServices` as one mutable object, the form in which the
 * import job calls them: each method performs one service call and updates
 * the object store, the schemas, the call log, its tally and the scripts in place.
 */
module LrsWorld {
  import opened Wrappers
  import S = LrsServices

  class World {
    var store: set<S.ObjKey>
    var schemas: set<string>
    var calls: seq<S.Call>
    var listings: seq<Option<seq<string>>>
    var acks: seq<bool>
    var statuses: seq<S.TaskStatus>
    var counts: seq<seq<int>>
    var tally: S.Tally

    /** The whole state as a value. */
    function State(): S.Env
      reads this
    {
      S.Env(store, schemas, calls, listings, acks, statuses, counts, tally)
    }

    constructor (e: S.Env)
      ensures State() == e
    {
      store, schemas, calls := e.store, e.schemas, e.calls;
      listings, acks, statuses, counts, tally := e.listings, e.acks, e.statuses, e.counts, e.tally;
    }

    method Install(e: S.Env)
      modifies this
      ensures State() == e
    {
      store, schemas, calls := e.store, e.schemas, e.calls;
      listings, acks, statuses, counts, tally := e.listings, e.acks, e.statuses, e.counts, e.tally;
    }

    method GetKeysWithPrefix(bucket: string, prefix: string) returns (listing: Option<seq<string>>)
      modifies this
      ensures (listing, State()) == S.GetKeysWithPrefix(old(State()), bucket, prefix)
    {
      var res := S.GetKeysWithPrefix(State(), bucket, prefix);
      listing := res.0;
      Install(res.1);
    }

    method DeleteObjects(bucket: string, keys: seq<string>) returns (ok: bool)
      modifies this
      ensures (ok, State()) == S.DeleteObjects(old(State()), bucket, keys)
    {
      var res := S.DeleteObjects(State(), bucket, keys);
      ok := res.0;
      Install(res.1);
    }

    method StartReplicationTask(taskId: string) returns (ok: bool)
      modifies this
      ensures (ok, State()) == S.StartReplicationTask(old(State()), taskId)
    {
      var res := S.StartReplicationTask(State(), taskId);
      ok := res.0;
      Install(res.1);
    }

    /** Whether the status script still has an answer. */
    method HasStatus() returns (b: bool)
      ensures b == (statuses != [])
    {
      b := statuses != [];
    }

    method GetReplicationTask(taskId: string) returns (answer: S.TaskStatus)
      requires statuses != []
      modifies this
      ensures (answer, State()) == S.GetReplicationTask(old(State()), taskId)
    {
      var res := S.GetReplicationTask(State(), taskId);
      answer := res.0;
      Install(res.1);
    }

    method LrsFetchCount() returns (rows: seq<int>)
      modifies this
      ensures (rows, State()) == S.LrsFetchCount(old(State()))
    {
      var res := S.LrsFetchCount(State());
      rows := res.0;
      Install(res.1);
    }

    method DropExternalSchema(schema: string)
      modifies this
      ensures State() == S.DropExternalSchema(old(State()), schema)
    {
      Install(S.DropExternalSchema(State(), schema));
    }

    method ExecuteDdlScript(template: S.DdlTemplate, schema: string, url: string) returns (ok: bool)
      modifies this
      ensures (ok, State()) == S.ExecuteDdlScript(old(State()), template, schema, url)
    {
      var res := S.ExecuteDdlScript(State(), template, schema, url);
      ok := res.0;
      Install(res.1);
    }

    method RedshiftFetchCount(relation: string) returns (rows: seq<int>)
      modifies this
      ensures (rows, State()) == S.RedshiftFetchCount(old(State()), relation)
    {
      var res := S.RedshiftFetchCount(State(), relation);
      rows := res.0;
      Install(res.1);
    }

    method RedshiftUnload(schema: string, url: string) returns (ok: bool)
      modifies this
      ensures (ok, State()) == S.RedshiftUnload(old(State()), schema, url)
    {
      var res := S.RedshiftUnload(State(), schema, url);
      ok := res.0;
      Install(res.1);
    }

    method CopyObject(src: S.ObjKey, dst: S.ObjKey) returns (ok: bool)
      modifies this
      ensures (ok, State()) == S.CopyObject(old(State()), src, dst)
    {
      var res := S.CopyObject(State(), src, dst);
      ok := res.0;
      Install(res.1);
    }

    method LrsTruncate() returns (ok: bool)
      modifies this
      ensures (ok, State()) == S.LrsTruncate(old(State()))
    {
      var res := S.LrsTruncate(State());
      ok := res.0;
      Install(res.1);
    }
  }
}
