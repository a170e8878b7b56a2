/**
 * What `ResyncCanvasSnapshots.run` does, as functions from the state of the
 * services before the run to its outcome and the state after it: the job id,
 * the key derivations, the handling of one failure record, and the replay
 * loop with its two counters.
 */
module ResyncSpec {
  import opened Wrappers
  import opened PyStrings
  import opened SnapshotServices

  /** The `app.config` entries the job reads. */
  datatype ResyncConfig = ResyncConfig(lochS3Bucket: string, currentTermPath: string)

  /** The two counters of the loop. */
  datatype Counts = Counts(successes: nat, failures: nat)

  /**
   * The one way a run aborts: a destination URL that does not contain the
   * loch bucket followed by '/' has no second piece to take, and the
   * `IndexError` escapes the loop.
   */
  datatype ResyncError = UrlWithoutBucket(url: string)

  const JobIdPrefix := "resync_"
  const RequestsTable := "requests"
  const SyncTask := "sync_file_to_s3"
  const ErrorStatus := "error"

  // ---------------------------------------------------------------- the job id

  /** `generate_job_id()`, given the whole seconds of the clock reading. */
  function GenerateJobId(seconds: nat): (id: string)
    ensures |id| > |JobIdPrefix| && id[..|JobIdPrefix|] == JobIdPrefix
    ensures forall i :: |JobIdPrefix| <= i < |id| ==> IsDigit(id[i])
  {
    JobIdPrefix + Decimal(seconds)
  }

  /** Reads the seconds back out of a job id; None if it does not have the form. */
  function ParseJobId(id: string): Option<nat> {
    if |id| > |JobIdPrefix| && id[..|JobIdPrefix|] == JobIdPrefix && forall i :: |JobIdPrefix| <= i < |id| ==> IsDigit(id[i]) then
      Some(ParseDecimal(id[|JobIdPrefix|..]))
    else
      None
  }

  /** A job id names the clock reading it was made from. */
  lemma JobIdRoundTrip(seconds: nat)
    ensures ParseJobId(GenerateJobId(seconds)) == Some(seconds)
  {
    var id := GenerateJobId(seconds);
    assert id[..|JobIdPrefix|] == JobIdPrefix;
    assert id[|JobIdPrefix|..] == Decimal(seconds);
    ParseDecimalOfDecimal(seconds);
  }

  /** Runs started in different seconds get different job ids. */
  lemma JobIdInjective(a: nat, b: nat)
    ensures GenerateJobId(a) == GenerateJobId(b) ==> a == b
  {
    JobIdRoundTrip(a);
    JobIdRoundTrip(b);
  }

  // ---------------------------------------------------------------- the two keys

  /** Python's truth value of an optional string: present and non-empty. */
  predicate Truthy(u: Option<string>) {
    u.Some? && u.value != ""
  }

  /** `url.split(bucket + '/')[1]`: the piece after the first occurrence, None when there is none. */
  function DeletionKey(url: string, bucket: string): Option<string> {
    var parts := Split(url, bucket + "/");
    if |parts| >= 2 then Some(parts[1]) else None
  }

  /** A split has a second piece exactly when the separator occurs. */
  lemma {:induction false} SplitHasSecondPiece(s: string, sep: string)
    requires sep != []
    ensures |Split(s, sep)| >= 2 <==> Contains(s, sep)
    decreases |s|
  {
    if !(sep <= s) && s != [] {
      SplitHasSecondPiece(s[1..], sep);
    }
  }

  /** The deletion key exists exactly when the URL names the bucket followed by '/'. */
  lemma DeletionKeyDefined(url: string, bucket: string)
    ensures DeletionKey(url, bucket).Some? <==> Contains(url, bucket + "/")
  {
    SplitHasSecondPiece(url, bucket + "/");
  }

  /**
   * For a URL `pre + bucket + '/' + key + rest`, where no occurrence of the
   * separator starts in `pre` or in `key` and `rest` is empty or starts with
   * the separator again, the deletion key is `key`: the piece up to the next
   * occurrence, not the whole remainder.
   */
  lemma DeletionKeyOf(pre: string, bucket: string, key: string, rest: string)
    requires var sep := bucket + "/"; forall i :: 0 <= i < |pre| ==> !(sep <= (pre + (sep + (key + rest)))[i..])
    requires var sep := bucket + "/"; forall i :: 0 <= i < |key| ==> !(sep <= (key + rest)[i..])
    requires rest == [] || bucket + "/" <= rest
    ensures DeletionKey(pre + (bucket + "/") + key + rest, bucket) == Some(key)
  {
    var sep := bucket + "/";
    FirstPieceBeforeSeparator(key, rest, sep);
    assert sep <= sep + (key + rest);
    assert (sep + (key + rest))[|sep|..] == key + rest;
    assert Split(sep + (key + rest), sep)[1] == key;
    SplitAfterStretch(pre, sep + (key + rest), sep);
    assert pre + sep + key + rest == pre + (sep + (key + rest));
  }

  /** The first piece of `key + rest` is `key` when no occurrence starts in `key` and `rest` is empty or starts with one. */
  lemma FirstPieceBeforeSeparator(key: string, rest: string, sep: string)
    requires sep != []
    requires forall i :: 0 <= i < |key| ==> !(sep <= (key + rest)[i..])
    requires rest == [] || sep <= rest
    ensures Split(key + rest, sep)[0] == key
  {
    SplitAfterStretch(key, rest, sep);
    assert Split(rest, sep)[0] == "";
    assert key + Split(rest, sep)[0] == key;
  }

  /** The first path component of the regenerated key: the current-term path for requests, the daily path otherwise. */
  function KeyPrefix(f: Failure, cfg: ResyncConfig, dailyPath: string): string {
    if f.canvasTable == RequestsTable then cfg.currentTermPath else dailyPath
  }

  /** `'/'.join(key_components)`: where the snapshot is stored again. */
  function RegeneratedKey(f: Failure, cfg: ResyncConfig, dailyPath: string): string {
    Join([KeyPrefix(f, cfg, dailyPath), f.canvasTable, f.filename], "/")
  }

  /** The regenerated key spelled out: prefix, table and file name, separated by '/'. */
  lemma RegeneratedKeyShape(f: Failure, cfg: ResyncConfig, dailyPath: string)
    ensures RegeneratedKey(f, cfg, dailyPath)
         == (if f.canvasTable == RequestsTable then cfg.currentTermPath else dailyPath) + "/" + f.canvasTable + "/" + f.filename
  {
    var prefix := KeyPrefix(f, cfg, dailyPath);
    JoinCons(prefix, [f.canvasTable, f.filename], "/");
    JoinCons(f.canvasTable, [f.filename], "/");
    assert [prefix, f.canvasTable, f.filename] == [prefix] + [f.canvasTable, f.filename];
    assert [f.canvasTable, f.filename] == [f.canvasTable] + [f.filename];
  }

  // ---------------------------------------------------------------- one failure record

  /** Whether processing `f` raises: cleanup is on, the record has a URL, and the URL lacks the bucket. */
  predicate Aborts(cfg: ResyncConfig, cleanup: bool, f: Failure) {
    cleanup && Truthy(f.destinationUrl) && DeletionKey(f.destinationUrl.value, cfg.lochS3Bucket).None?
  }

  /** Whether processing `f` attempts to delete its old snapshot. */
  predicate AttemptsDelete(cfg: ResyncConfig, cleanup: bool, f: Failure) {
    cleanup && Truthy(f.destinationUrl) && DeletionKey(f.destinationUrl.value, cfg.lochS3Bucket).Some?
  }

  /**
   * The cleanup step of the loop body: delete the stored snapshot and, if
   * S3 accepted, its metadata; a refused delete is only logged.
   */
  function Cleanup(e: Env, cfg: ResyncConfig, cleanup: bool, f: Failure): (r: (Result<(), ResyncError>, Env))
    ensures r.1.created == e.created && r.1.updates == e.updates && r.1.dispatches == e.dispatches
    ensures r.1.dispatchAcks == e.dispatchAcks && r.1.lastSync == e.lastSync
  {
    if cleanup && Truthy(f.destinationUrl) then
      match DeletionKey(f.destinationUrl.value, cfg.lochS3Bucket)
      case None => (Err(UrlWithoutBucket(f.destinationUrl.value)), e)
      case Some(key) =>
        var (deleted, e1) := DeleteObjects(e, [key]);
        if deleted then (Ok(()), DeleteCanvasSnapshots(e1, [key])) else (Ok(()), e1)
    else
      (Ok(()), e)
  }

  /** The sync-status row written for `f`. */
  function Entry(jobId: string, f: Failure): StatusEntry {
    StatusEntry(jobId, f.filename, f.canvasTable, f.sourceUrl)
  }

  /** The work dispatched for `f`. */
  function Work(jobId: string, cfg: ResyncConfig, dailyPath: string, f: Failure): Dispatch {
    Dispatch(SyncTask, jobId, f.sourceUrl, RegeneratedKey(f, cfg, dailyPath))
  }

  /**
   * The body of the loop for one record: clean up, write the sync status,
   * dispatch the resync, and mark the status as an error if the dispatch
   * answered falsy. The result is whether the dispatch was accepted.
   */
  function ResyncRecord(e: Env, cfg: ResyncConfig, jobId: string, cleanup: bool, dailyPath: string, f: Failure): (r: (Result<bool, ResyncError>, Env))
    ensures r.1.lastSync == e.lastSync
  {
    var (cleaned, e1) := Cleanup(e, cfg, cleanup, f);
    if cleaned.Err? then
      (Err(cleaned.error), e1)
    else
      var e2 := CreateCanvasSyncStatus(e1, Entry(jobId, f));
      var key := RegeneratedKey(f, cfg, dailyPath);
      var (dispatched, e3) := DispatchWork(e2, Dispatch(SyncTask, jobId, f.sourceUrl, key));
      if !dispatched then (Ok(false), UpdateCanvasSyncStatus(e3, StatusUpdate(jobId, key, ErrorStatus)))
      else (Ok(true), e3)
  }

  /**
   * A record aborts exactly when its URL lacks the bucket, and then nothing
   * has been written; otherwise the result is the dispatcher's answer.
   */
  lemma ResyncRecordOutcome(e: Env, cfg: ResyncConfig, jobId: string, cleanup: bool, dailyPath: string, f: Failure)
    ensures var r := ResyncRecord(e, cfg, jobId, cleanup, dailyPath, f);
      && (Aborts(cfg, cleanup, f) ==> r == (Err(UrlWithoutBucket(f.destinationUrl.value)), e))
      && (!Aborts(cfg, cleanup, f) ==> r.0 == Ok(Head(e.dispatchAcks)))
  {
  }

  /**
   * A record that does not abort writes exactly one sync-status row with the
   * job id and the record's file name, table and source URL, dispatches
   * exactly one unit of work for the regenerated key, and marks that key as
   * an error exactly when the dispatch answered falsy.
   */
  lemma ResyncRecordWrites(e: Env, cfg: ResyncConfig, jobId: string, cleanup: bool, dailyPath: string, f: Failure)
    ensures var r := ResyncRecord(e, cfg, jobId, cleanup, dailyPath, f); var key := RegeneratedKey(f, cfg, dailyPath);
      !Aborts(cfg, cleanup, f) ==>
        && r.1.created == e.created + [Entry(jobId, f)]
        && r.1.dispatches == e.dispatches + [Work(jobId, cfg, dailyPath, f)]
        && r.1.dispatchAcks == Rest(e.dispatchAcks)
        && r.1.updates == e.updates + if Head(e.dispatchAcks) then [] else [StatusUpdate(jobId, key, ErrorStatus)]
  {
  }

  /**
   * A record deletes only when cleanup is on and its URL names the bucket; the
   * object named by the deletion key goes, and its metadata goes only if the
   * S3 delete was accepted. Nothing else is removed.
   */
  lemma ResyncRecordCleanup(e: Env, cfg: ResyncConfig, jobId: string, cleanup: bool, dailyPath: string, f: Failure)
    ensures var r := ResyncRecord(e, cfg, jobId, cleanup, dailyPath, f);
      var attempt := AttemptsDelete(cfg, cleanup, f);
      var removed := attempt && Head(e.deleteAcks);
      && r.1.deleteAcks == (if attempt then Rest(e.deleteAcks) else e.deleteAcks)
      && r.1.store == (if removed then e.store - {DeletionKey(f.destinationUrl.value, cfg.lochS3Bucket).value} else e.store)
      && r.1.snapshots == (if removed then e.snapshots - {DeletionKey(f.destinationUrl.value, cfg.lochS3Bucket).value} else e.snapshots)
  {
    if AttemptsDelete(cfg, cleanup, f) {
      var key := DeletionKey(f.destinationUrl.value, cfg.lochS3Bucket).value;
      assert (set k | k in [key]) == {key};
    }
  }

  /**
   * The calls of a record that does not abort, in order: the delete and, if
   * accepted, the metadata purge; the status row; the dispatch; the error
   * update if the dispatch was refused.
   */
  lemma ResyncRecordLog(e: Env, cfg: ResyncConfig, jobId: string, cleanup: bool, dailyPath: string, f: Failure)
    ensures var r := ResyncRecord(e, cfg, jobId, cleanup, dailyPath, f);
      var key := RegeneratedKey(f, cfg, dailyPath); var ok := Head(e.dispatchAcks);
      !Aborts(cfg, cleanup, f) ==>
        r.1.calls == e.calls + CleanupLog(cfg, cleanup, f, Head(e.deleteAcks))
                             + [StatusCreated(Entry(jobId, f)), Dispatched(Work(jobId, cfg, dailyPath, f), ok)]
                             + (if ok then [] else [StatusUpdated(StatusUpdate(jobId, key, ErrorStatus))])
  {
  }

  /** The calls of the cleanup step of a record that does not abort, given the answer to the delete. */
  function CleanupLog(cfg: ResyncConfig, cleanup: bool, f: Failure, deleted: bool): seq<Call> {
    if AttemptsDelete(cfg, cleanup, f) then
      var key := DeletionKey(f.destinationUrl.value, cfg.lochS3Bucket).value;
      [ObjectsDeleted([key], deleted)] + if deleted then [SnapshotsDeleted([key])] else []
    else
      []
  }

  // ---------------------------------------------------------------- the loop

  /**
   * The `for` loop of `run` from some record on, with the counters so far.
   * Each record adds one to exactly one counter; a record that raises ends
   * the run.
   */
  function ResyncLoop(e: Env, cfg: ResyncConfig, jobId: string, cleanup: bool, dailyPath: string,
                      records: seq<Failure>, successes: nat, failures: nat): (r: (Result<Counts, ResyncError>, Env))
    ensures r.1.lastSync == e.lastSync
    decreases |records|
  {
    if records == [] then
      (Ok(Counts(successes, failures)), e)
    else
      var (dispatched, e1) := ResyncRecord(e, cfg, jobId, cleanup, dailyPath, records[0]);
      if dispatched.Err? then (Err(dispatched.error), e1)
      else if dispatched.value then ResyncLoop(e1, cfg, jobId, cleanup, dailyPath, records[1..], successes + 1, failures)
      else ResyncLoop(e1, cfg, jobId, cleanup, dailyPath, records[1..], successes, failures + 1)
  }

  /** Position of the first record that raises, or the number of records if none does. */
  function FirstAbort(cfg: ResyncConfig, cleanup: bool, records: seq<Failure>): (n: nat)
    ensures n <= |records|
    ensures forall i :: 0 <= i < n ==> !Aborts(cfg, cleanup, records[i])
    ensures n < |records| ==> Aborts(cfg, cleanup, records[n])
    decreases |records|
  {
    if records == [] then 0
    else if Aborts(cfg, cleanup, records[0]) then 0
    else 1 + FirstAbort(cfg, cleanup, records[1..])
  }

  /** The records the loop gets through: those before the first one that raises. */
  function Processed(cfg: ResyncConfig, cleanup: bool, records: seq<Failure>): (done: seq<Failure>)
    ensures done == records[..FirstAbort(cfg, cleanup, records)]
    decreases |records|
  {
    if records == [] || Aborts(cfg, cleanup, records[0]) then []
    else [records[0]] + Processed(cfg, cleanup, records[1..])
  }

  /** How many of the first `n` dispatch answers are falsy. */
  function Rejections(acks: seq<bool>, n: nat): (k: nat)
    ensures k <= n
  {
    if n == 0 then 0 else (if Head(acks) then 0 else 1) + Rejections(Rest(acks), n - 1)
  }

  /**
   * The loop ends in error exactly when some record raises, on the URL of the
   * first such record; otherwise every record was counted once, the failures
   * being the falsy dispatch answers.
   */
  lemma {:induction false} ResyncLoopOutcome(e: Env, cfg: ResyncConfig, jobId: string, cleanup: bool, dailyPath: string,
                                             records: seq<Failure>, successes: nat, failures: nat)
    ensures var r := ResyncLoop(e, cfg, jobId, cleanup, dailyPath, records, successes, failures);
      var n := FirstAbort(cfg, cleanup, records); var k := Rejections(e.dispatchAcks, |records|);
      r.0 == if n < |records| then Err(UrlWithoutBucket(records[n].destinationUrl.value))
             else Ok(Counts(successes + (|records| - k), failures + k))
    decreases |records|
  {
    if records != [] {
      var f := records[0];
      ResyncRecordOutcome(e, cfg, jobId, cleanup, dailyPath, f);
      if !Aborts(cfg, cleanup, f) {
        var e1 := ResyncRecord(e, cfg, jobId, cleanup, dailyPath, f).1;
        ResyncRecordWrites(e, cfg, jobId, cleanup, dailyPath, f);
        var ok := Head(e.dispatchAcks);
        assert ResyncLoop(e, cfg, jobId, cleanup, dailyPath, records, successes, failures)
            == ResyncLoop(e1, cfg, jobId, cleanup, dailyPath, records[1..], if ok then successes + 1 else successes,
                          if ok then failures else failures + 1);
        ResyncLoopOutcome(e1, cfg, jobId, cleanup, dailyPath, records[1..],
                          if ok then successes + 1 else successes, if ok then failures else failures + 1);
      }
    }
  }

  /** The status rows written for `records`, in order. */
  function Entries(jobId: string, records: seq<Failure>): (rows: seq<StatusEntry>)
    ensures |rows| == |records|
    decreases |records|
  {
    if records == [] then [] else [Entry(jobId, records[0])] + Entries(jobId, records[1..])
  }

  /** The work dispatched for `records`, in order. */
  function Works(jobId: string, cfg: ResyncConfig, dailyPath: string, records: seq<Failure>): (ws: seq<Dispatch>)
    ensures |ws| == |records|
    decreases |records|
  {
    if records == [] then [] else [Work(jobId, cfg, dailyPath, records[0])] + Works(jobId, cfg, dailyPath, records[1..])
  }

  /** The error updates for `records` given the dispatch answers: one per falsy answer, for that record's key. */
  function ErrorUpdates(jobId: string, cfg: ResyncConfig, dailyPath: string, records: seq<Failure>, acks: seq<bool>): (us: seq<StatusUpdate>)
    ensures |us| == Rejections(acks, |records|)
    decreases |records|
  {
    if records == [] then []
    else
      var later := ErrorUpdates(jobId, cfg, dailyPath, records[1..], Rest(acks));
      if Head(acks) then later else [StatusUpdate(jobId, RegeneratedKey(records[0], cfg, dailyPath), ErrorStatus)] + later
  }

  /** A record that does not raise: its writes, then the loop over the rest with its counter stepped. */
  lemma ResyncLoopNext(e: Env, cfg: ResyncConfig, jobId: string, cleanup: bool, dailyPath: string,
                       records: seq<Failure>, successes: nat, failures: nat) returns (e1: Env)
    requires records != [] && !Aborts(cfg, cleanup, records[0])
    ensures var f := records[0]; var ok := Head(e.dispatchAcks);
      && e1.created == e.created + [Entry(jobId, f)]
      && e1.dispatches == e.dispatches + [Work(jobId, cfg, dailyPath, f)]
      && e1.dispatchAcks == Rest(e.dispatchAcks)
      && (ok ==> e1.updates == e.updates)
      && (!ok ==> e1.updates == e.updates + [StatusUpdate(jobId, RegeneratedKey(f, cfg, dailyPath), ErrorStatus)])
      && ResyncLoop(e, cfg, jobId, cleanup, dailyPath, records, successes, failures)
         == ResyncLoop(e1, cfg, jobId, cleanup, dailyPath, records[1..],
                       if ok then successes + 1 else successes, if ok then failures else failures + 1)
  {
    e1 := ResyncRecord(e, cfg, jobId, cleanup, dailyPath, records[0]).1;
    ResyncRecordOutcome(e, cfg, jobId, cleanup, dailyPath, records[0]);
    ResyncRecordWrites(e, cfg, jobId, cleanup, dailyPath, records[0]);
  }

  /** A record that raises ends the loop with nothing written. */
  lemma ResyncLoopAbort(e: Env, cfg: ResyncConfig, jobId: string, cleanup: bool, dailyPath: string,
                        records: seq<Failure>, successes: nat, failures: nat)
    requires records != [] && Aborts(cfg, cleanup, records[0])
    ensures ResyncLoop(e, cfg, jobId, cleanup, dailyPath, records, successes, failures).1 == e
  {
    ResyncRecordOutcome(e, cfg, jobId, cleanup, dailyPath, records[0]);
  }

  /** Up to the first record that raises, the loop writes one status row per record, in order, under the one job id. */
  lemma {:induction false} ResyncLoopCreates(e: Env, cfg: ResyncConfig, jobId: string, cleanup: bool, dailyPath: string,
                                             records: seq<Failure>, successes: nat, failures: nat)
    ensures var done := Processed(cfg, cleanup, records);
      ResyncLoop(e, cfg, jobId, cleanup, dailyPath, records, successes, failures).1.created == e.created + Entries(jobId, done)
    decreases |records|
  {
    if records != [] && !Aborts(cfg, cleanup, records[0]) {
      var f := records[0];
      var ok := Head(e.dispatchAcks);
      var e1 := ResyncLoopNext(e, cfg, jobId, cleanup, dailyPath, records, successes, failures);
      ResyncLoopCreates(e1, cfg, jobId, cleanup, dailyPath, records[1..],
             if ok then successes + 1 else successes, if ok then failures else failures + 1);
      var rest := Processed(cfg, cleanup, records[1..]);
      assert ([f] + rest)[1..] == rest;
      var later := Entries(jobId, rest);
      assert Entries(jobId, [f] + rest) == [Entry(jobId, f)] + later;
      AppendAssoc(e.created, [Entry(jobId, f)], later);
    } else if records != [] {
      ResyncLoopAbort(e, cfg, jobId, cleanup, dailyPath, records, successes, failures);
    }
  }

  /** Up to the first record that raises, the loop dispatches one unit of work per record, in order, under the one job id. */
  lemma {:induction false} ResyncLoopDispatches(e: Env, cfg: ResyncConfig, jobId: string, cleanup: bool, dailyPath: string,
                                             records: seq<Failure>, successes: nat, failures: nat)
    ensures var done := Processed(cfg, cleanup, records);
      ResyncLoop(e, cfg, jobId, cleanup, dailyPath, records, successes, failures).1.dispatches
        == e.dispatches + Works(jobId, cfg, dailyPath, done)
    decreases |records|
  {
    if records != [] && !Aborts(cfg, cleanup, records[0]) {
      var f := records[0];
      var ok := Head(e.dispatchAcks);
      var e1 := ResyncLoopNext(e, cfg, jobId, cleanup, dailyPath, records, successes, failures);
      ResyncLoopDispatches(e1, cfg, jobId, cleanup, dailyPath, records[1..],
             if ok then successes + 1 else successes, if ok then failures else failures + 1);
      var rest := Processed(cfg, cleanup, records[1..]);
      assert ([f] + rest)[1..] == rest;
      var later := Works(jobId, cfg, dailyPath, rest);
      assert Works(jobId, cfg, dailyPath, [f] + rest) == [Work(jobId, cfg, dailyPath, f)] + later;
      AppendAssoc(e.dispatches, [Work(jobId, cfg, dailyPath, f)], later);
    } else if records != [] {
      ResyncLoopAbort(e, cfg, jobId, cleanup, dailyPath, records, successes, failures);
    }
  }

  /**
   * Up to the first record that raises, the loop writes an error update for
   * exactly the records whose dispatch answered falsy, for that record's key.
   */
  lemma {:induction false} ResyncLoopErrorUpdates(e: Env, cfg: ResyncConfig, jobId: string, cleanup: bool, dailyPath: string,
                                             records: seq<Failure>, successes: nat, failures: nat)
    ensures var done := Processed(cfg, cleanup, records);
      ResyncLoop(e, cfg, jobId, cleanup, dailyPath, records, successes, failures).1.updates
        == e.updates + ErrorUpdates(jobId, cfg, dailyPath, done, e.dispatchAcks)
    decreases |records|
  {
    if records != [] && !Aborts(cfg, cleanup, records[0]) {
      var f := records[0];
      var ok := Head(e.dispatchAcks);
      var e1 := ResyncLoopNext(e, cfg, jobId, cleanup, dailyPath, records, successes, failures);
      ResyncLoopErrorUpdates(e1, cfg, jobId, cleanup, dailyPath, records[1..],
             if ok then successes + 1 else successes, if ok then failures else failures + 1);
      var rest := Processed(cfg, cleanup, records[1..]);
      assert ([f] + rest)[1..] == rest;
      var later := ErrorUpdates(jobId, cfg, dailyPath, rest, e1.dispatchAcks);
      if !ok {
        var u := StatusUpdate(jobId, RegeneratedKey(f, cfg, dailyPath), ErrorStatus);
        AppendAssoc(e.updates, [u], later);
      }
    } else if records != [] {
      ResyncLoopAbort(e, cfg, jobId, cleanup, dailyPath, records, successes, failures);
    }
  }

  /** Without cleanup nothing is deleted and no record can raise. */
  lemma {:induction false} ResyncLoopWithoutCleanup(e: Env, cfg: ResyncConfig, jobId: string, dailyPath: string,
                                                    records: seq<Failure>, successes: nat, failures: nat)
    ensures var r := ResyncLoop(e, cfg, jobId, false, dailyPath, records, successes, failures);
      r.0.Ok? && r.1.store == e.store && r.1.snapshots == e.snapshots && r.1.deleteAcks == e.deleteAcks
    decreases |records|
  {
    if records != [] {
      var f := records[0];
      ResyncRecordOutcome(e, cfg, jobId, false, dailyPath, f);
      ResyncRecordCleanup(e, cfg, jobId, false, dailyPath, f);
      var e1 := ResyncRecord(e, cfg, jobId, false, dailyPath, f).1;
      var ok := Head(e.dispatchAcks);
      var s1, f1 := if ok then successes + 1 else successes, if ok then failures else failures + 1;
      assert ResyncLoop(e, cfg, jobId, false, dailyPath, records, successes, failures)
          == ResyncLoop(e1, cfg, jobId, false, dailyPath, records[1..], s1, f1);
      ResyncLoopWithoutCleanup(e1, cfg, jobId, dailyPath, records[1..], s1, f1);
    }
  }

  // ---------------------------------------------------------------- the run

  /**
   * `ResyncCanvasSnapshots.run(cleanup)` started at `seconds` on a day whose
   * daily snapshot path is `dailyPath`. The outcome is None when the ledger
   * lists no failure and the run is skipped, the two counters it logs at the
   * end otherwise, and the escaping error if a record raises.
   */
  function ResyncRun(e: Env, cfg: ResyncConfig, cleanup: bool, seconds: nat, dailyPath: string): (r: (Result<Option<Counts>, ResyncError>, Env))
    ensures r.1.lastSync == e.lastSync
  {
    var jobId := GenerateJobId(seconds);
    var (md, e1) := GetFailuresFromLastSync(e);
    if md.failures == [] then
      (Ok(None), e1)
    else
      var (counted, e2) := ResyncLoop(e1, cfg, jobId, cleanup, dailyPath, md.failures, 0, 0);
      match counted
      case Err(err) => (Err(err), e2)
      case Ok(counts) => (Ok(Some(counts)), e2)
  }

  /** An empty ledger is only read: nothing is deleted, written or dispatched. */
  lemma ResyncRunEmpty(e: Env, cfg: ResyncConfig, cleanup: bool, seconds: nat, dailyPath: string)
    requires e.lastSync.failures == []
    ensures ResyncRun(e, cfg, cleanup, seconds, dailyPath) == (Ok(None), e.(calls := e.calls + [FailuresRead(e.lastSync)]))
  {
  }

  /**
   * A run over a non-empty ledger fails exactly when some failure record
   * raises; otherwise every record is counted once, as a success or, when
   * its dispatch answered falsy, as a failure.
   */
  lemma ResyncRunOutcome(e: Env, cfg: ResyncConfig, cleanup: bool, seconds: nat, dailyPath: string)
    requires e.lastSync.failures != []
    ensures var r := ResyncRun(e, cfg, cleanup, seconds, dailyPath);
      var fs := e.lastSync.failures; var n := FirstAbort(cfg, cleanup, fs); var k := Rejections(e.dispatchAcks, |fs|);
      && r.0 == (if n < |fs| then Err(UrlWithoutBucket(fs[n].destinationUrl.value)) else Ok(Some(Counts(|fs| - k, k))))
      && (r.0.Ok? ==> r.0.value.value.successes + r.0.value.value.failures == |fs|)
  {
    var e1 := GetFailuresFromLastSync(e).1;
    ResyncLoopOutcome(e1, cfg, GenerateJobId(seconds), cleanup, dailyPath, e.lastSync.failures, 0, 0);
  }

  /**
   * Every status row, dispatch and error update of a run carries the job id
   * made from its start time; the rows and dispatches follow the ledger up to
   * the first record that raises, and the error updates are those of the
   * falsy dispatch answers.
   */
  lemma ResyncRunWrites(e: Env, cfg: ResyncConfig, cleanup: bool, seconds: nat, dailyPath: string)
    ensures var r := ResyncRun(e, cfg, cleanup, seconds, dailyPath);
      var fs := e.lastSync.failures; var n := FirstAbort(cfg, cleanup, fs); var jobId := GenerateJobId(seconds);
      && r.1.created == e.created + Entries(jobId, fs[..n])
      && r.1.dispatches == e.dispatches + Works(jobId, cfg, dailyPath, fs[..n])
      && r.1.updates == e.updates + ErrorUpdates(jobId, cfg, dailyPath, fs[..n], e.dispatchAcks)
  {
    var e1 := GetFailuresFromLastSync(e).1;
    var jobId := GenerateJobId(seconds);
    ResyncLoopCreates(e1, cfg, jobId, cleanup, dailyPath, e.lastSync.failures, 0, 0);
    ResyncLoopDispatches(e1, cfg, jobId, cleanup, dailyPath, e.lastSync.failures, 0, 0);
    ResyncLoopErrorUpdates(e1, cfg, jobId, cleanup, dailyPath, e.lastSync.failures, 0, 0);
  }

  /** A run without cleanup deletes nothing and never raises. */
  lemma ResyncRunWithoutCleanup(e: Env, cfg: ResyncConfig, seconds: nat, dailyPath: string)
    ensures var r := ResyncRun(e, cfg, false, seconds, dailyPath);
      r.0.Ok? && r.1.store == e.store && r.1.snapshots == e.snapshots
  {
    var e1 := GetFailuresFromLastSync(e).1;
    ResyncLoopWithoutCleanup(e1, cfg, GenerateJobId(seconds), dailyPath, e.lastSync.failures, 0, 0);
  }
}
