/** The two sync schedulers, backend/tasks/FullSyncTask.js and
    backend/tasks/RecentlyAddedItemsSyncTask.js. They are the same code with the roles of the two
    sync kinds swapped: each fails its own stale runs at startup, then on every timer tick reads
    the task log, refreshes its delay from the settings, and either skips (re-arming the timer)
    or runs its sync. Times are whole minutes; the sync itself is an outcome given as input. */
module SyncSchedulers {
  import opened Wrappers
  import opened TaskStates
  import opened TaskLog
  import opened AppConfig

  predicate IsSync(own: TaskName)
  {
    own == FullSync || own == PartialSync
  }

  /** The sync kind whose in-flight run blocks this scheduler. */
  function OtherSync(own: TaskName): (r: TaskName)
    requires IsSync(own)
    ensures IsSync(r) && r != own
  {
    if own == FullSync then PartialSync else FullSync
  }

  /** `taskDelay` before any setting is read: a day for the full sync, an hour for the partial one. */
  function DefaultDelay(own: TaskName): int
  {
    if own == FullSync then 1440 else 60
  }

  /** The `settings.Tasks` member the scheduler reads and writes. */
  function SettingKey(own: TaskName): string
  {
    if own == FullSync then "JellyfinSync" else "PartialJellyfinSync"
  }

  /** The `Interval` of the task's settings entry, None when the entry or its member is missing. */
  function IntervalOf(settings: Settings, key: string): Option<int>
  {
    if key in settings.tasks then settings.tasks[key].interval else None
  }

  /** `taskDelay` after `fetchTaskSettings`: a truthy `Interval` replaces it, otherwise it stays. */
  function FetchedDelay(delay: int, settings: Settings, key: string): (r: int)
    ensures Truthy(IntervalOf(settings, key)) ==> r == IntervalOf(settings, key).value
    ensures !Truthy(IntervalOf(settings, key)) ==> r == delay
  {
    if Truthy(IntervalOf(settings, key)) then IntervalOf(settings, key).value else delay
  }

  /** The settings after `fetchTaskSettings`: without a truthy `Interval` the current delay is
      written into the entry (creating `Tasks` and the entry when missing); otherwise nothing is
      written. */
  function FetchedSettings(settings: Settings, key: string, delay: int): (r: Settings)
    ensures Truthy(IntervalOf(settings, key)) ==> r == settings
    ensures !Truthy(IntervalOf(settings, key)) ==> IntervalOf(r, key) == Some(delay)
    ensures r.excludedLibraries == settings.excludedLibraries && r.excludedUsers == settings.excludedUsers
    ensures r.tasks.Keys == settings.tasks.Keys + {key}
    ensures forall k :: k in settings.tasks && k != key ==> r.tasks[k] == settings.tasks[k]
  {
    if Truthy(IntervalOf(settings, key)) then settings
    else settings.(tasks := settings.tasks[key := TaskSettings(Some(delay))])
  }

  /** After one fetch the delay and the stored `Interval` agree (for a non-zero delay), so a second
      fetch changes neither. */
  lemma FetchSettles(delay: int, settings: Settings, key: string)
    requires delay != 0
    ensures var d := FetchedDelay(delay, settings, key);
            var s := FetchedSettings(settings, key, delay);
            && IntervalOf(s, key) == Some(d)
            && FetchedDelay(d, s, key) == d
            && FetchedSettings(s, key, d) == s
  {
  }

  /** The delay written back is the scheduler's current delay, which need not be the default: once
      an `Interval` has been read, clearing it later writes that earlier interval back. */
  lemma FetchWritesCurrentDelay(own: TaskName, interval: int, settings: Settings)
    requires interval != 0 && interval != DefaultDelay(own)
    requires IntervalOf(settings, SettingKey(own)) == Some(interval)
    ensures var d := FetchedDelay(DefaultDelay(own), settings, SettingKey(own));
            var cleared := settings.(tasks := settings.tasks[SettingKey(own) := TaskSettings(None)]);
            IntervalOf(FetchedSettings(cleared, SettingKey(own), d), SettingKey(own)) == Some(interval)
  {
  }

  /** `current_time.isAfter(TimeRun + taskDelay minutes)`. */
  predicate DelayElapsed(last: LogRow, delay: int, now: int)
  {
    now > last.timeRun + delay
  }

  /** The skip test of `intervalCallback`, consulted only when a previous run is logged. */
  predicate SkipSync(last: LogRow, delay: int, now: int, otherRunning: bool)
  {
    !DelayElapsed(last, delay, now) || last.result == Running || otherRunning
  }

  /** The configuration allows a sync: the row exists and neither host nor key is NULL. */
  predicate Connected(config: ConfigRow)
    reads config
  {
    config.present && config.host.Some? && config.apiKey.Some?
  }

  datatype TickOutcome =
    | NoConfig    // returned before reading the log; not re-armed
    | Skipped     // re-armed without running
    | Ran         // the sync returned; re-armed
    | Threw       // the sync (or a query) threw; not re-armed

  class SyncScheduler {
    const own: TaskName
    /** Minutes that must pass after the latest logged run. */
    var taskDelay: int
    /** Whether `intervalTask` holds a live timer. */
    var armed: bool

    /** `FullSyncTask()` / `RecentlyAddedItemsSyncTask()`: the startup cleanup, the default
        delay, and the first timer. */
    constructor (own: TaskName, log: LogTable, cleanupOk: bool)
      requires IsSync(own)
      modifies log
      ensures this.own == own && taskDelay == DefaultDelay(own) && armed
      ensures cleanupOk ==> log.rows == FailStaleRuns(old(log.rows), own)
      ensures !cleanupOk ==> log.rows == old(log.rows)
    {
      log.FailStale(own, cleanupOk);
      this.own := own;
      taskDelay := DefaultDelay(own);
      armed := true;
    }

    /** `fetchTaskSettings()`: nothing happens when the configuration row is missing. */
    method FetchTaskSettings(config: ConfigRow)
      modifies this`taskDelay, config`settings
      ensures config.present ==> taskDelay == FetchedDelay(old(taskDelay), old(config.settings), SettingKey(own))
      ensures config.present ==> config.settings == FetchedSettings(old(config.settings), SettingKey(own), old(taskDelay))
      ensures !config.present ==> taskDelay == old(taskDelay) && config.settings == old(config.settings)
    {
      if config.present {
        var key := SettingKey(own);
        var interval := IntervalOf(config.settings, key);
        if interval.Some? && interval.value != 0 {
          taskDelay := interval.value;
        } else {
          config.settings := config.settings.(tasks := config.settings.tasks[key := TaskSettings(Some(taskDelay))]);
        }
      }
    }

    /** `intervalCallback()` on the task log `log` at minute `now`; `runOk` says whether the sync
        returns normally. The timer is cleared on entry and re-armed only after a skip or a run. */
    method IntervalCallback(config: ConfigRow, log: seq<LogRow>, now: int, runOk: bool) returns (outcome: TickOutcome)
      requires IsSync(own)
      modifies this`taskDelay, this`armed, config`settings
      ensures outcome == NoConfig <==> !Connected(config)
      ensures var last := Latest(log, own, AnyResult);
              outcome == Skipped <==> Connected(config) && last.Some? && SkipSync(last.value, taskDelay, now, HasRunning(log, OtherSync(own)))
      ensures outcome == Ran ==> runOk
      ensures outcome == Threw ==> !runOk
      ensures armed <==> outcome == Skipped || outcome == Ran
      ensures Connected(config) && Latest(log, own, AnyResult).Some? ==>
                taskDelay == FetchedDelay(old(taskDelay), old(config.settings), SettingKey(own))
                && config.settings == FetchedSettings(old(config.settings), SettingKey(own), old(taskDelay))
      ensures !(Connected(config) && Latest(log, own, AnyResult).Some?) ==>
                taskDelay == old(taskDelay) && config.settings == old(config.settings)
    {
      armed := false;
      if !config.present || config.host.None? || config.apiKey.None? {
        return NoConfig;
      }
      var last := Latest(log, own, AnyResult);
      var otherRunning := HasRunning(log, OtherSync(own));
      if last.Some? {
        FetchTaskSettings(config);
        if !(now > last.value.timeRun + taskDelay) || last.value.result == Running || otherRunning {
          armed := true;
          return Skipped;
        }
      }
      if !runOk {
        return Threw;
      }
      armed := true;
      outcome := Ran;
    }
  }

  /** A tick runs the sync only once the delay has strictly passed since every logged run of its
      kind, whatever that run's result (a Failed run postpones the next one too), and only when no
      run of either kind is in flight by the latest row. */
  lemma RunWaitsForDelay(log: seq<LogRow>, own: TaskName, delay: int, now: int)
    requires IsSync(own)
    requires Latest(log, own, AnyResult).Some?
    requires !SkipSync(Latest(log, own, AnyResult).value, delay, now, HasRunning(log, OtherSync(own)))
    ensures forall k :: 0 <= k < |log| && log[k].name == own ==> now > log[k].timeRun + delay
    ensures !HasRunning(log, OtherSync(own))
  {
    var last := Latest(log, own, AnyResult).value;
    forall k | 0 <= k < |log| && log[k].name == own
      ensures now > log[k].timeRun + delay
    {
      var r := log[k].result;
      assert r in AnyResult by {
        assert r.Success? || r.Failed? || r.Running? || r.Error? || r.Stopped? || r.Completed?;
      }
    }
  }

  /** With no logged run of its kind the sync runs at once, whatever the other kind is doing. */
  lemma FirstRunIgnoresOther(log: seq<LogRow>, own: TaskName)
    requires IsSync(own)
    requires forall k :: 0 <= k < |log| ==> log[k].name != own
    ensures Latest(log, own, AnyResult).None?
  {
  }

  /** Right after the startup cleanup, the scheduler's own latest row is never Running, so only the
      delay and the other kind can make the first tick skip. */
  lemma CleanupUnblocksOwn(log: seq<LogRow>, own: TaskName)
    requires IsSync(own)
    ensures var last := Latest(FailStaleRuns(log, own), own, AnyResult);
            last.Some? ==> last.value.result != Running
  {
  }
}
