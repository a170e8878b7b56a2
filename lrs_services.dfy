/**
 * The services the LRS incremental import talks to (S3, Redshift, the DMS
 * replication service and the LRS database), as pure functions over one value
 * `Env`. The part of their state the job can change is the set of S3 objects
 * and the set of Redshift external schemas. What the services answer comes
 * from scripts consumed in call order. Every call is appended, with its
 * answer, to the log `calls`. A script that has run dry answers falsy:
 * no listing, a false acknowledgement, no rows.
 */
module LrsServices {
  import opened Wrappers

  /** The address of one S3 object. */
  datatype ObjKey = ObjKey(bucket: string, key: string)

  /** The answer of `dms.get_replication_task`: `Status` and `StopReason`, either possibly absent. */
  datatype TaskStatus = TaskStatus(status: Option<string>, stopReason: Option<string>)

  /** The two DDL templates the job resolves. */
  datatype DdlTemplate = StatementsTable | UnloadedStatementsTable

  /** One call to a service, with the answer it got. */
  datatype Call =
    | Listed(bucket: string, prefix: string, listing: Option<seq<string>>)
    | ObjectsDeleted(bucket: string, keys: seq<string>, ok: bool)
    | ReplicationStarted(taskId: string, ok: bool)
    | TaskPolled(taskId: string, answer: TaskStatus)
    | LrsCounted(rows: seq<int>)
    | SchemaDropped(schema: string)
    | DdlExecuted(template: DdlTemplate, schema: string, url: string, ok: bool)
    | RedshiftCounted(relation: string, rows: seq<int>)
    | Unloaded(schema: string, url: string, ok: bool)
    | Copied(src: ObjKey, dst: ObjKey, ok: bool)
    | LrsTruncated(ok: bool)

  /**
   * The services' state: the objects and schemas, the log of calls made so
   * far, the scripts of answers still to come, and `tally`, the log counted
   * as it grows (every service steps it with the call it appends).
   */
  datatype Env = Env(
    store: set<ObjKey>,
    schemas: set<string>,
    calls: seq<Call>,
    listings: seq<Option<seq<string>>>,
    acks: seq<bool>,
    statuses: seq<TaskStatus>,
    counts: seq<seq<int>>,
    tally: Tally)

  /**
   * What the job's properties count in a call log: the destinations of the
   * copies in order, the numbers of UNLOADs, truncations, status polls, DDL
   * executions and schema drops, and the first row of every Redshift count
   * read (None when the query returned no row).
   */
  datatype Tally = Tally(copies: seq<ObjKey>, unloads: nat, truncations: nat, polls: nat, ddl: nat, drops: nat, firstRows: seq<Option<int>>)

  const NoCalls := Tally([], 0, 0, 0, 0, 0, [])

  function FirstRow(rows: seq<int>): Option<int> {
    if rows == [] then None else Some(rows[0])
  }

  /** The tally of a log after one more call. */
  function Step(s: Tally, c: Call): Tally {
    match c
    case Copied(_, dst, _) => s.(copies := s.copies + [dst])
    case Unloaded(_, _, _) => s.(unloads := s.unloads + 1)
    case LrsTruncated(_) => s.(truncations := s.truncations + 1)
    case TaskPolled(_, _) => s.(polls := s.polls + 1)
    case DdlExecuted(_, _, _, _) => s.(ddl := s.ddl + 1)
    case SchemaDropped(_) => s.(drops := s.drops + 1)
    case RedshiftCounted(_, rows) => s.(firstRows := s.firstRows + [FirstRow(rows)])
    case _ => s
  }

  function Count(log: seq<Call>): Tally
    decreases |log|
  {
    if log == [] then NoCalls else Step(Count(log[..|log| - 1]), log[|log| - 1])
  }

  /** Logging one more call steps the tally. */
  lemma CountAppend(log: seq<Call>, c: Call)
    ensures Count(log + [c]) == Step(Count(log), c)
  {
    assert (log + [c])[..|log|] == log;
  }

  /** The state after logging `c` and stepping the tally with it. */
  function Logged(e: Env, c: Call): (e': Env)
    ensures Count(e.calls) == e.tally ==> Count(e'.calls) == e'.tally
  {
    CountAppend(e.calls, c);
    e.(calls := e.calls + [c], tally := Step(e.tally, c))
  }

  function NextAck(e: Env): bool {
    Head(e.acks)
  }

  function NextListing(e: Env): Option<seq<string>> {
    if e.listings == [] then None else e.listings[0]
  }

  function NextRows(e: Env): seq<int> {
    if e.counts == [] then [] else e.counts[0]
  }

  /** The objects named by `keys` in `bucket`. */
  function Objects(bucket: string, keys: seq<string>): set<ObjKey> {
    set k | k in keys :: ObjKey(bucket, k)
  }

  /** `s3.get_keys_with_prefix(prefix, bucket=bucket)`: a key list, or None on error. */
  function GetKeysWithPrefix(e: Env, bucket: string, prefix: string): (r: (Option<seq<string>>, Env))
    ensures r.0 == NextListing(e)
    ensures r.1 == e.(listings := Rest(e.listings), calls := e.calls + [Listed(bucket, prefix, r.0)])
  {
    var listing := NextListing(e);
    (listing, Logged(e.(listings := Rest(e.listings)), Listed(bucket, prefix, listing)))
  }

  /** `s3.delete_objects(keys, bucket=bucket)`: on success the objects are gone. */
  function DeleteObjects(e: Env, bucket: string, keys: seq<string>): (r: (bool, Env))
    ensures r.0 == NextAck(e)
    ensures r.1 == e.(store := if r.0 then e.store - Objects(bucket, keys) else e.store,
                      acks := Rest(e.acks),
                      calls := e.calls + [ObjectsDeleted(bucket, keys, r.0)])
  {
    var ok := NextAck(e);
    (ok, Logged(e.(store := if ok then e.store - Objects(bucket, keys) else e.store, acks := Rest(e.acks)),
                ObjectsDeleted(bucket, keys, ok)))
  }

  /** `dms.start_replication_task(task_id)`. */
  function StartReplicationTask(e: Env, taskId: string): (r: (bool, Env))
    ensures r.0 == NextAck(e)
    ensures r.1 == e.(acks := Rest(e.acks), calls := e.calls + [ReplicationStarted(taskId, r.0)])
  {
    var ok := NextAck(e);
    (ok, Logged(e.(acks := Rest(e.acks)), ReplicationStarted(taskId, ok)))
  }

  /** `dms.get_replication_task(task_id)`: the next status of the script. */
  function GetReplicationTask(e: Env, taskId: string): (r: (TaskStatus, Env))
    requires e.statuses != []
    ensures r.0 == e.statuses[0]
    ensures r.1 == e.(statuses := e.statuses[1..], calls := e.calls + [TaskPolled(taskId, r.0)],
                      tally := e.tally.(polls := e.tally.polls + 1))
  {
    var answer := e.statuses[0];
    (answer, Logged(e.(statuses := e.statuses[1..]), TaskPolled(taskId, answer)))
  }

  /** `lrs.fetch('select count(*) from statements')`: the first column of each row. */
  function LrsFetchCount(e: Env): (r: (seq<int>, Env))
    ensures r.0 == NextRows(e)
    ensures r.1 == e.(counts := Rest(e.counts), calls := e.calls + [LrsCounted(r.0)])
  {
    var rows := NextRows(e);
    (rows, Logged(e.(counts := Rest(e.counts)), LrsCounted(rows)))
  }

  /** `redshift.drop_external_schema(schema)`: gone afterwards, whether it existed or not. */
  function DropExternalSchema(e: Env, schema: string): (e': Env)
    ensures e' == e.(schemas := e.schemas - {schema}, calls := e.calls + [SchemaDropped(schema)],
                     tally := e.tally.(drops := e.tally.drops + 1))
  {
    Logged(e.(schemas := e.schemas - {schema}), SchemaDropped(schema))
  }

  /**
   * `redshift.execute_ddl_script(...)` for one of the two templates. Either
   * template, when accepted, leaves the external schema `schema` in place with
   * its table over `url`: the statements template creates the schema, and the
   * unloaded-statements template must create it too, since `run` drops the LRS
   * schema after every destination and creates the unloaded table in it first
   * on the next run.
   */
  function ExecuteDdlScript(e: Env, template: DdlTemplate, schema: string, url: string): (r: (bool, Env))
    ensures r.0 == NextAck(e)
    ensures r.1 == e.(schemas := if r.0 then e.schemas + {schema} else e.schemas,
                      acks := Rest(e.acks),
                      calls := e.calls + [DdlExecuted(template, schema, url, r.0)],
                      tally := e.tally.(ddl := e.tally.ddl + 1))
  {
    var ok := NextAck(e);
    (ok, Logged(e.(schemas := if ok then e.schemas + {schema} else e.schemas,
                   acks := Rest(e.acks)),
                DdlExecuted(template, schema, url, ok)))
  }

  /** `redshift.fetch('select count(*) from <relation>')`: the `count` of each row. */
  function RedshiftFetchCount(e: Env, relation: string): (r: (seq<int>, Env))
    ensures r.0 == NextRows(e)
    ensures r.1 == e.(counts := Rest(e.counts), calls := e.calls + [RedshiftCounted(relation, r.0)],
                      tally := e.tally.(firstRows := e.tally.firstRows + [FirstRow(r.0)]))
  {
    var rows := NextRows(e);
    (rows, Logged(e.(counts := Rest(e.counts)), RedshiftCounted(relation, rows)))
  }

  /**
   * `redshift.execute(UNLOAD ...)` of `<schema>.statements` to `url`. The
   * files it writes are not added to `store`, which holds only the keys the
   * job itself deletes and copies.
   */
  function RedshiftUnload(e: Env, schema: string, url: string): (r: (bool, Env))
    ensures r.0 == NextAck(e)
    ensures r.1 == e.(acks := Rest(e.acks), calls := e.calls + [Unloaded(schema, url, r.0)],
                      tally := e.tally.(unloads := e.tally.unloads + 1))
  {
    var ok := NextAck(e);
    (ok, Logged(e.(acks := Rest(e.acks)), Unloaded(schema, url, ok)))
  }

  /**
   * `s3.copy(src_bucket, src_key, dst_bucket, dst_key)`: on success the copy
   * exists. The source, written by the replication task, is not looked up.
   */
  function CopyObject(e: Env, src: ObjKey, dst: ObjKey): (r: (bool, Env))
    ensures r.0 == NextAck(e)
    ensures r.1 == e.(store := if r.0 then e.store + {dst} else e.store,
                      acks := Rest(e.acks),
                      calls := e.calls + [Copied(src, dst, r.0)],
                      tally := e.tally.(copies := e.tally.copies + [dst]))
  {
    var ok := NextAck(e);
    (ok, Logged(e.(store := if ok then e.store + {dst} else e.store, acks := Rest(e.acks)), Copied(src, dst, ok)))
  }

  /** `lrs.execute('TRUNCATE statements')`. */
  function LrsTruncate(e: Env): (r: (bool, Env))
    ensures r.0 == NextAck(e)
    ensures r.1 == e.(acks := Rest(e.acks), calls := e.calls + [LrsTruncated(r.0)],
                      tally := e.tally.(truncations := e.tally.truncations + 1))
  {
    var ok := NextAck(e);
    (ok, Logged(e.(acks := Rest(e.acks)), LrsTruncated(ok)))
  }
}
