/** The backup scheduler, backend/tasks/BackupTask.js. At startup it fails stale backup runs and
    reads (and always writes back) its interval once; each timer tick then looks only at the
    latest backup that succeeded or is still running, and either skips or runs a backup, which
    it logs as Running and then as Success. Times are whole minutes. */
module BackupTask {
  import opened Wrappers
  import opened TaskStates
  import opened TaskLog
  import opened AppConfig
  import opened SyncSchedulers

  const BackupKey := "Backup"
  const BackupDelay := 1440

  /** The results that count as a previous backup. */
  const Counted: set<TaskState> := {Success, Running}

  /** The settings after the one-time read: the entry `Tasks.Backup` always ends up with a truthy
      `Interval`, the stored one when it was truthy and the delay otherwise. */
  function BackupSettings(settings: Settings, delay: int): (r: Settings)
    requires delay != 0
    ensures IntervalOf(r, BackupKey) == Some(FetchedDelay(delay, settings, BackupKey))
    ensures Truthy(IntervalOf(r, BackupKey))
    ensures r.excludedLibraries == settings.excludedLibraries && r.excludedUsers == settings.excludedUsers
    ensures forall k :: k in settings.tasks && k != BackupKey ==> k in r.tasks && r.tasks[k] == settings.tasks[k]
  {
    settings.(tasks := settings.tasks[BackupKey := TaskSettings(Some(FetchedDelay(delay, settings, BackupKey)))])
  }

  /** The skip test of the backup tick; no other task kind is consulted. */
  predicate SkipBackup(last: LogRow, delay: int, now: int)
  {
    !DelayElapsed(last, delay, now) || last.result == Running
  }

  class BackupScheduler {
    /** Minutes that must pass after the latest counted backup; fixed after startup. */
    var taskDelay: int
    /** Whether `intervalTask` holds a live timer. */
    var armed: bool

    /** `BackupTask()`: the startup cleanup, the one-time settings read and write (skipped when
        the configuration row is missing), and the first timer. */
    constructor (log: LogTable, cleanupOk: bool, config: ConfigRow)
      modifies log, config`settings
      ensures cleanupOk ==> log.rows == FailStaleRuns(old(log.rows), Backup)
      ensures !cleanupOk ==> log.rows == old(log.rows)
      ensures config.present ==> taskDelay == FetchedDelay(BackupDelay, old(config.settings), BackupKey)
      ensures config.present ==> config.settings == BackupSettings(old(config.settings), BackupDelay)
      ensures !config.present ==> taskDelay == BackupDelay && config.settings == old(config.settings)
      ensures armed
    {
      log.FailStale(Backup, cleanupOk);
      var delay := BackupDelay;
      if config.present {
        var interval := IntervalOf(config.settings, BackupKey);
        if interval.Some? && interval.value != 0 {
          delay := interval.value;
        }
        config.settings := config.settings.(tasks := config.settings.tasks[BackupKey := TaskSettings(Some(delay))]);
      }
      taskDelay := delay;
      armed := true;
    }

    /** `intervalCallback()` at minute `now`; `configError` is the configuration's error flag and
        `backupOk` whether the backup returns normally. A run appends its Running row, which
        becomes Success only when the backup returns. */
    method IntervalCallback(configError: bool, log: LogTable, now: int, backupOk: bool) returns (outcome: TickOutcome)
      modifies this`armed, log
      ensures outcome == NoConfig <==> configError
      ensures var last := Latest(old(log.rows), Backup, Counted);
              outcome == Skipped <==> !configError && last.Some? && SkipBackup(last.value, taskDelay, now)
      ensures outcome == Ran <==> outcome != NoConfig && outcome != Skipped && backupOk
      ensures outcome == Ran ==> log.rows == old(log.rows) + [LogRow(Backup, Success, now)]
      ensures outcome == Threw ==> log.rows == old(log.rows) + [LogRow(Backup, Running, now)]
      ensures outcome == NoConfig || outcome == Skipped ==> log.rows == old(log.rows)
      ensures armed <==> outcome == Skipped || outcome == Ran
    {
      armed := false;
      if configError {
        return NoConfig;
      }
      var last := Latest(log.rows, Backup, Counted);
      if last.Some? && (!(now > last.value.timeRun + taskDelay) || last.value.result == Running) {
        armed := true;
        return Skipped;
      }
      log.rows := log.rows + [LogRow(Backup, Running, now)];
      if !backupOk {
        return Threw;
      }
      log.rows := log.rows[|log.rows| - 1 := LogRow(Backup, Success, now)];
      armed := true;
      outcome := Ran;
    }
  }

  /** A Failed backup never postpones the next one: logging it changes no skip decision. */
  lemma FailedBackupIgnored(log: seq<LogRow>, time: int, delay: int, now: int)
    ensures var failed := log + [LogRow(Backup, Failed, time)];
            && Latest(failed, Backup, Counted) == Latest(log, Backup, Counted)
            && (Latest(failed, Backup, Counted).Some? ==>
                  (SkipBackup(Latest(failed, Backup, Counted).value, delay, now) <==> SkipBackup(Latest(log, Backup, Counted).value, delay, now)))
  {
    LatestIgnores(log, LogRow(Backup, Failed, time), Backup, Counted);
  }

  /** After a backup logged at minute `now` (no earlier counted backup being later), a tick at
      minute `t` skips exactly when `t` is not past `now` plus the delay. */
  lemma NextBackupWaits(log: seq<LogRow>, now: int, delay: int, t: int)
    requires forall k :: 0 <= k < |log| && Candidate(log[k], Backup, Counted) ==> log[k].timeRun <= now
    ensures var after := log + [LogRow(Backup, Success, now)];
            var last := Latest(after, Backup, Counted);
            last.Some? && last.value.timeRun == now
            && (SkipBackup(last.value, delay, t) <==> t <= now + delay || last.value.result == Running)
  {
    var after := log + [LogRow(Backup, Success, now)];
    assert Candidate(after[|log|], Backup, Counted);
    var last := Latest(after, Backup, Counted);
    var k :| 0 <= k < |after| && after[k] == last.value;
    if k < |log| {
      assert after[k] == log[k];
    }
  }

  /** A backup that throws leaves its row Running (the latest counted one, when every earlier
      counted backup is older), so until the startup cleanup of the next process start every
      tick would skip on it; the scheduler is not re-armed either. */
  lemma ThrownBackupBlocks(log: seq<LogRow>, now: int, delay: int, t: int)
    requires forall k :: 0 <= k < |log| && Candidate(log[k], Backup, Counted) ==> log[k].timeRun < now
    ensures var after := log + [LogRow(Backup, Running, now)];
            var last := Latest(after, Backup, Counted);
            last == Some(LogRow(Backup, Running, now)) && SkipBackup(last.value, delay, t)
    ensures var cleaned := FailStaleRuns(log + [LogRow(Backup, Running, now)], Backup);
            forall k :: 0 <= k < |cleaned| && cleaned[k].name == Backup ==> cleaned[k].result != Running
  {
    var after := log + [LogRow(Backup, Running, now)];
    assert Candidate(after[|log|], Backup, Counted);
    var last := Latest(after, Backup, Counted);
    var k :| 0 <= k < |after| && after[k] == last.value;
    if k < |log| {
      assert after[k] == log[k];
    }
  }
}
