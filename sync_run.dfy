/** The context of one sync run (the `syncTask` object of backend/routes/sync.js), the bulk
    persistence gateway (`db.insertBulk`, `db.deleteBulk`, `db.updateSingleFieldBulk`) and the
    wrappers of class `sync` that turn a gateway FAILURE into a thrown error. */
module SyncRun {
  import opened TaskStates
  import opened TaskLog

  /** What the gateway answers for one batch. */
  datatype Outcome = SUCCESS | FAILURE(message: string)

  datatype Table = UsersTable | LibrariesTable | ItemsTable | SeasonsTable | EpisodesTable | ItemInfoTable | PluginDataTable
  datatype BulkOp = Insert | Delete | UpdateField

  /** One gateway call of a run. `checked` marks a call made through the wrappers of class
      `sync`, which throw on FAILURE; other callers only log a FAILURE. */
  datatype BulkCall = BulkCall(table: Table, op: BulkOp, rows: nat, outcome: Outcome, checked: bool)

  datatype CountKind = ItemCounts | SeasonCounts | EpisodeCounts

  /** A line of the run's `loggedData`. The informational lines ("Syncing... 1/4", "N Rows Removed.")
      are not kept; the counter summaries, the error lines and the final halt line are. */
  datatype LogLine = Message(text: string) | CountsLine(kind: CountKind, inserted: int, updated: int) | Halted(error: string)

  /** The kinds of progress notification a run sends (the intermediate "Update" messages are not kept). */
  datatype Progress = StartMsg | SuccessMsg | ErrorMsg

  /** The phases of a full sync, in the order they may be entered. */
  datatype Phase = UserSync | LibrarySync | MediaSync(library: string) | ItemArchive
                 | SeasonEpisodeArchive | OrphanCleanup | ActivityMigration | LibraryStats

  class SyncTask {
    const taskName: TaskName
    /** The gateway's answers to the bulk calls of this run, in call order; calls beyond the
        script succeed (the database itself is not modelled further). */
    const script: seq<Outcome>
    var loggedData: seq<LogLine>
    /** The successive values written to the `Result` of the run's log row, starting with Running. */
    var results: seq<TaskState>
    var progress: seq<Progress>
    var calls: seq<BulkCall>
    /** How many of `calls` threw; only the throwing wrappers below change it. */
    ghost var throws: nat
    var phases: seq<Phase>

    constructor (taskName: TaskName, script: seq<Outcome>)
      ensures this.taskName == taskName && this.script == script
      ensures loggedData == [] && results == [] && progress == [] && calls == [] && phases == [] && throws == 0
    {
      this.taskName, this.script := taskName, script;
      loggedData, results, progress, calls, phases := [], [], [], [], [];
      throws := 0;
    }
  }

  /** The answer to the n-th bulk call of a run scripted by `script`. */
  function AnswerAt(script: seq<Outcome>, n: nat): Outcome
  {
    if n < |script| then script[n] else SUCCESS
  }

  /** The counters a sync helper reports. */
  datatype Counts = Counts(inserted: int, updated: int)

  function Plus(a: Counts, b: Counts): Counts
  {
    Counts(a.inserted + b.inserted, a.updated + b.updated)
  }

  /** The counters of one submitted batch: under PARTIAL_SYNC every submitted row counts as inserted;
      otherwise the stored rows the batch was compared with count as updated and the rest, floored
      at zero, as inserted. */
  function BatchCounts(partial: bool, submitted: nat, existing: nat): (r: Counts)
    ensures r.inserted >= 0 && r.updated >= 0
    ensures partial ==> r == Counts(submitted, 0)
    ensures !partial ==> r.updated == existing && r.inserted + r.updated == if submitted > existing then submitted else existing
  {
    if partial then Counts(submitted, 0)
    else Counts(if submitted > existing then submitted - existing else 0, existing)
  }

  predicate Thrown(c: BulkCall)
  {
    c.checked && c.outcome.FAILURE?
  }

  predicate LastThrew(cs: seq<BulkCall>)
  {
    |cs| > 0 && Thrown(cs[|cs| - 1])
  }

  /** Every call after position `from` was answered SUCCESS. */
  predicate AllAccepted(calls: seq<BulkCall>, from: nat)
  {
    forall k :: from <= k < |calls| ==> calls[k].outcome.SUCCESS?
  }

  /** The line a throwing wrapper logs for a failed call. */
  function ErrorLine(c: BulkCall): LogLine
    requires c.outcome.FAILURE?
  {
    Message((if c.op == Insert then "Error performing bulk insert:" else "Error: ") + c.outcome.message)
  }

  /** The message of the error a throwing wrapper raises for a failed call. */
  function ThrownError(c: BulkCall): string
    requires c.outcome.FAILURE?
  {
    (if c.op == Insert then "Error performing bulk insert:" else "Error :") + c.outcome.message
  }

  /** A step of a run that moved the throw counter from `before` to `after`: nothing threw if `ok`;
      otherwise exactly one call threw, the last one, so nothing was submitted after it. */
  predicate Step(before: nat, after: nat, calls: seq<BulkCall>, ok: bool)
  {
    after == before + (if ok then 0 else 1) && (!ok ==> LastThrew(calls))
  }

  /** The gateway: records the call and answers with the run's scripted outcome. */
  method Submit(task: SyncTask, table: Table, op: BulkOp, rows: nat, checked: bool) returns (o: Outcome)
    modifies task`calls
    ensures o == AnswerAt(task.script, |old(task.calls)|)
    ensures task.calls == old(task.calls) + [BulkCall(table, op, rows, o, checked)]
  {
    o := AnswerAt(task.script, |task.calls|);
    task.calls := task.calls + [BulkCall(table, op, rows, o, checked)];
  }

  /** `sync.insertData`: a FAILURE is logged and thrown (`ok` false). */
  method InsertData(task: SyncTask, table: Table, rows: nat) returns (ok: bool)
    modifies task`calls, task`loggedData, task`throws
    ensures ok <==> AnswerAt(task.script, |old(task.calls)|).SUCCESS?
    ensures task.calls == old(task.calls) + [BulkCall(table, Insert, rows, AnswerAt(task.script, |old(task.calls)|), true)]
    ensures Step(old(task.throws), task.throws, task.calls, ok)
    ensures ok ==> task.loggedData == old(task.loggedData)
    ensures !ok ==> task.loggedData == old(task.loggedData) + [ErrorLine(task.calls[|task.calls| - 1])]
  {
    var o := Submit(task, table, Insert, rows, true);
    ok := o.SUCCESS?;
    if !ok {
      task.loggedData := task.loggedData + [ErrorLine(task.calls[|task.calls| - 1])];
      task.throws := task.throws + 1;
    }
  }

  /** `sync.removeData`: a FAILURE is logged and thrown. */
  method RemoveData(task: SyncTask, table: Table, rows: nat) returns (ok: bool)
    modifies task`calls, task`loggedData, task`throws
    ensures ok <==> AnswerAt(task.script, |old(task.calls)|).SUCCESS?
    ensures task.calls == old(task.calls) + [BulkCall(table, Delete, rows, AnswerAt(task.script, |old(task.calls)|), true)]
    ensures Step(old(task.throws), task.throws, task.calls, ok)
    ensures ok ==> task.loggedData == old(task.loggedData)
    ensures !ok ==> task.loggedData == old(task.loggedData) + [ErrorLine(task.calls[|task.calls| - 1])]
  {
    var o := Submit(task, table, Delete, rows, true);
    ok := o.SUCCESS?;
    if !ok {
      task.loggedData := task.loggedData + [ErrorLine(task.calls[|task.calls| - 1])];
      task.throws := task.throws + 1;
    }
  }

  /** `sync.updateSingleFieldOnDB`: a FAILURE is logged and thrown. */
  method UpdateSingleFieldOnDB(task: SyncTask, table: Table, rows: nat) returns (ok: bool)
    modifies task`calls, task`loggedData, task`throws
    ensures ok <==> AnswerAt(task.script, |old(task.calls)|).SUCCESS?
    ensures task.calls == old(task.calls) + [BulkCall(table, UpdateField, rows, AnswerAt(task.script, |old(task.calls)|), true)]
    ensures Step(old(task.throws), task.throws, task.calls, ok)
    ensures ok ==> task.loggedData == old(task.loggedData)
    ensures !ok ==> task.loggedData == old(task.loggedData) + [ErrorLine(task.calls[|task.calls| - 1])]
  {
    var o := Submit(task, table, UpdateField, rows, true);
    ok := o.SUCCESS?;
    if !ok {
      task.loggedData := task.loggedData + [ErrorLine(task.calls[|task.calls| - 1])];
      task.throws := task.throws + 1;
    }
  }
}
