/** The task log (`jf_logging`) as the schedulers see it, and the queries they run on it. */
module TaskLog {
  import opened Wrappers
  import opened TaskStates

  /** The task kinds named by backend/logging/taskName.js. That file is not part of this
      model, so only the kinds are kept, not the strings they are stored as. */
  datatype TaskName = FullSync | PartialSync | Import | Backup | DeletionRules

  datatype TriggerType = Manual | Scheduled

  /** One row of the task log: the task kind, its `Result`, and `TimeRun` in whole minutes. */
  datatype LogRow = LogRow(name: TaskName, result: TaskState, timeRun: int)

  const AnyResult: set<TaskState> := {Success, Failed, Running, Error, Stopped, Completed}

  /** Startup cleanup of a scheduler: `UPDATE ... SET Result = Failed WHERE Name = name AND Result = Running`. */
  function FailStaleRuns(log: seq<LogRow>, name: TaskName): (r: seq<LogRow>)
    ensures |r| == |log|
    ensures forall k :: 0 <= k < |r| ==> r[k].name == log[k].name && r[k].timeRun == log[k].timeRun
    ensures forall k :: 0 <= k < |r| && r[k].name == name ==> r[k].result != Running
    ensures forall k :: 0 <= k < |r| && log[k].name == name && log[k].result == Running ==> r[k].result == Failed
    ensures forall k :: 0 <= k < |r| && (log[k].name != name || log[k].result != Running) ==> r[k] == log[k]
  {
    seq(|log|, k requires 0 <= k < |log| =>
      if log[k].name == name && log[k].result == Running then log[k].(result := Failed) else log[k])
  }

  predicate Candidate(row: LogRow, name: TaskName, accepted: set<TaskState>)
  {
    row.name == name && row.result in accepted
  }

  /** `SELECT ... WHERE Name = name AND Result IN accepted ORDER BY TimeRun DESC LIMIT 1`.
      Rows with equal TimeRun are not ordered by the query; the model takes the earliest logged. */
  function Latest(log: seq<LogRow>, name: TaskName, accepted: set<TaskState>): (r: Option<LogRow>)
    ensures r.None? <==> forall k :: 0 <= k < |log| ==> !Candidate(log[k], name, accepted)
    ensures r.Some? ==> r.value in log && Candidate(r.value, name, accepted)
    ensures r.Some? ==> forall k :: 0 <= k < |log| && Candidate(log[k], name, accepted) ==> log[k].timeRun <= r.value.timeRun
  {
    if log == [] then None
    else
      var rest := Latest(log[1..], name, accepted);
      assert forall k :: 1 <= k < |log| ==> log[k] == log[1..][k - 1];
      if !Candidate(log[0], name, accepted) then rest
      else if rest.Some? && rest.value.timeRun > log[0].timeRun then rest
      else Some(log[0])
  }

  /** `SELECT ... WHERE Name = name AND Result = Running LIMIT 1` returned a row. */
  predicate HasRunning(log: seq<LogRow>, name: TaskName)
  {
    exists k :: 0 <= k < |log| && log[k].name == name && log[k].result == Running
  }

  /** After the startup cleanup for `name`, no run of that kind is seen as in flight any more,
      while the in-flight runs of every other kind are kept. */
  lemma {:induction false} CleanupClearsRunning(log: seq<LogRow>, name: TaskName, other: TaskName)
    requires other != name
    ensures !HasRunning(FailStaleRuns(log, name), name)
    ensures HasRunning(FailStaleRuns(log, name), other) <==> HasRunning(log, other)
  {
    var r := FailStaleRuns(log, name);
    if HasRunning(log, other) {
      var k :| 0 <= k < |log| && log[k].name == other && log[k].result == Running;
      assert r[k] == log[k];
    }
    if HasRunning(r, other) {
      var k :| 0 <= k < |r| && r[k].name == other && r[k].result == Running;
      assert r[k] == log[k];
    }
  }

  /** A row that the query does not select changes nothing about the latest selected row, wherever
      it is logged: a Failed run, say, never postpones a scheduler that only looks at Success
      and Running rows. */
  lemma {:induction false} LatestIgnores(log: seq<LogRow>, row: LogRow, name: TaskName, accepted: set<TaskState>)
    requires !Candidate(row, name, accepted)
    ensures Latest(log + [row], name, accepted) == Latest(log, name, accepted)
    ensures Latest([row] + log, name, accepted) == Latest(log, name, accepted)
  {
    assert ([row] + log)[1..] == log;
    if log != [] {
      assert (log + [row])[1..] == log[1..] + [row];
      LatestIgnores(log[1..], row, name, accepted);
    }
  }

  /** The task log table, as the schedulers' startup cleanup and the backup tick change it. */
  class LogTable {
    var rows: seq<LogRow>

    constructor (rows: seq<LogRow>)
      ensures this.rows == rows
    {
      this.rows := rows;
    }

    /** The startup cleanup of a scheduler for `name`; when the UPDATE fails (`updateOk` false)
        the error is only written to the console. */
    method FailStale(name: TaskName, updateOk: bool)
      modifies this
      ensures updateOk ==> rows == FailStaleRuns(old(rows), name)
      ensures !updateOk ==> rows == old(rows)
    {
      if updateOk {
        rows := FailStaleRuns(rows, name);
      }
    }
  }
}
