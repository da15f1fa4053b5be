/** Season and episode ingestion (`syncSeasons`, `syncEpisodes` of backend/routes/sync.js). Both
    walk the `SeriesId` of every fetched record, duplicates included, and submit for each the
    records of that series, under PARTIAL_SYNC without the ids already stored for it. Their
    gateway calls do not throw: a FAILURE is logged, the run's log row is set to Failed, and the
    loop goes on. */
module SyncShows {
  import opened TaskStates
  import opened TaskLog
  import opened Catalog
  import opened SyncRun

  /** What distinguishes the two passes: the table, the record mapper, and the series of a stored row. */
  datatype ShowTable<!R> = ShowTable(table: Table, rowOf: RemoteItem -> R, seriesOf: R -> Id)

  /** The state a pass has reached: the table, the run's calls, the pass's counters, and the run's
      log lines and log-row results. */
  datatype ShowRun<R> = ShowRun(m: map<Id, R>, calls: seq<BulkCall>, counts: Counts, log: seq<LogLine>, marks: seq<TaskState>)

  function SeasonSeries(s: SeasonRow): Id { s.seriesId }
  function EpisodeSeries(e: EpisodeRow): Id { e.seriesId }

  const SeasonPass: ShowTable<SeasonRow> := ShowTable(SeasonsTable, SeasonRowOf, SeasonSeries)
  const EpisodePass: ShowTable<EpisodeRow> := ShowTable(EpisodesTable, EpisodeRowOf, EpisodeSeries)

  /** The `SeriesId` of every record, in order and not deduplicated. */
  function SeriesIds(records: seq<RemoteItem>): (r: seq<Id>)
    ensures |r| == |records| && forall k :: 0 <= k < |r| ==> r[k] == records[k].seriesId
  {
    if records == [] then [] else [records[0].seriesId] + SeriesIds(records[1..])
  }

  /** The ids stored for one series (the per-show `SELECT`). */
  function StoredOfShow<R>(m: map<Id, R>, seriesOf: R -> Id, show: Id): set<Id>
  {
    set id | id in m && seriesOf(m[id]) == show
  }

  /** The records one iteration submits. A record without an id never matches a stored id. */
  function ShowBatch(partial: bool, existing: set<Id>, records: seq<RemoteItem>, show: Id): (b: seq<RemoteItem>)
    ensures forall r :: r in b <==> r in records && r.seriesId == show && (!partial || r.id.None? || r.id.value !in existing)
  {
    if records == [] then []
    else
      var r := records[0];
      var keep := r.seriesId == show && (!partial || r.id.None? || r.id.value !in existing);
      (if keep then [r] else []) + ShowBatch(partial, existing, records[1..], show)
  }

  /** One iteration of the per-show loop: the n-th call of the run gets the n-th scripted answer. */
  function ShowStep<R>(partial: bool, t: ShowTable<R>, records: seq<RemoteItem>, script: seq<Outcome>,
                       acc: ShowRun<R>, show: Id): ShowRun<R>
  {
    var existing := StoredOfShow(acc.m, t.seriesOf, show);
    var batch := ShowBatch(partial, existing, records, show);
    if |batch| == 0 then acc
    else
      var o := AnswerAt(script, |acc.calls|);
      var c := BulkCall(t.table, Insert, |batch|, o, false);
      if o.SUCCESS? then acc.(m := acc.m + ToMap(RowsOf(t.rowOf, batch)), calls := acc.calls + [c],
                              counts := Plus(acc.counts, BatchCounts(partial, |batch|, |existing|)))
      else acc.(calls := acc.calls + [c], log := acc.log + [ErrorLine(c)], marks := acc.marks + [Failed])
  }

  /** The rows submitted by the successful calls. */
  function RowsAccepted(calls: seq<BulkCall>): nat
  {
    if calls == [] then 0
    else RowsAccepted(calls[..|calls| - 1]) + if calls[|calls| - 1].outcome.SUCCESS? then calls[|calls| - 1].rows else 0
  }

  /** The first `n` iterations of the per-show loop over `shows`, starting from `start`. */
  function ShowFold<R>(partial: bool, t: ShowTable<R>, records: seq<RemoteItem>, script: seq<Outcome>,
                       start: ShowRun<R>, shows: seq<Id>, n: nat): ShowRun<R>
    requires n <= |shows|
  {
    if n == 0 then start
    else ShowStep(partial, t, records, script, ShowFold(partial, t, records, script, start, shows, n - 1), shows[n - 1])
  }

  /** One iteration appends at most one unchecked insert into the pass's own table; on a FAILURE it
      appends the logged error and a Failed result, otherwise log and results are unchanged. */
  lemma StepShape<R>(partial: bool, t: ShowTable<R>, records: seq<RemoteItem>, script: seq<Outcome>,
                     acc: ShowRun<R>, show: Id)
    ensures var next := ShowStep(partial, t, records, script, acc, show);
            (next.calls == acc.calls && next.log == acc.log && next.marks == acc.marks && next.counts == acc.counts)
            || (|next.calls| == |acc.calls| + 1 && next.calls[..|acc.calls|] == acc.calls
                && next.calls[|acc.calls|].table == t.table && next.calls[|acc.calls|].op == Insert
                && !next.calls[|acc.calls|].checked
                && if next.calls[|acc.calls|].outcome.SUCCESS?
                   then next.log == acc.log && next.marks == acc.marks
                        && next.counts == Plus(acc.counts, BatchCounts(partial, next.calls[|acc.calls|].rows,
                                                                        |StoredOfShow(acc.m, t.seriesOf, show)|))
                   else next.log == acc.log + [ErrorLine(next.calls[|acc.calls|])] && next.marks == acc.marks + [Failed]
                        && next.counts == acc.counts)
  {
  }

  /** An iteration keeps the calls made before it. */
  lemma StepPrefix<R>(partial: bool, t: ShowTable<R>, records: seq<RemoteItem>, script: seq<Outcome>,
                      acc: ShowRun<R>, show: Id)
    ensures var next := ShowStep(partial, t, records, script, acc, show);
            acc.calls <= next.calls && |next.calls| <= |acc.calls| + 1
  {
  }

  /** An iteration appends at most one call, an unchecked insert into the pass's own table. */
  lemma StepCall<R>(partial: bool, t: ShowTable<R>, records: seq<RemoteItem>, script: seq<Outcome>,
                    acc: ShowRun<R>, show: Id)
    ensures var next := ShowStep(partial, t, records, script, acc, show);
            acc.calls <= next.calls && |next.calls| <= |acc.calls| + 1
            && forall k :: |acc.calls| <= k < |next.calls| ==>
                 next.calls[k].table == t.table && next.calls[k].op == Insert && !next.calls[k].checked
  {
  }

  /** A pass only appends calls, and only unchecked inserts into its own table: it never throws. */
  lemma {:induction false} ShowFoldCalls<R>(partial: bool, t: ShowTable<R>, records: seq<RemoteItem>, script: seq<Outcome>,
                                           start: ShowRun<R>, shows: seq<Id>, n: nat)
    requires n <= |shows|
    ensures var run := ShowFold(partial, t, records, script, start, shows, n);
            start.calls <= run.calls && |run.calls| <= |start.calls| + n
            && forall k :: |start.calls| <= k < |run.calls| ==>
                 run.calls[k].table == t.table && run.calls[k].op == Insert && !run.calls[k].checked
  {
    if n != 0 {
      ShowFoldCalls(partial, t, records, script, start, shows, n - 1);
      StepCall(partial, t, records, script, ShowFold(partial, t, records, script, start, shows, n - 1), shows[n - 1]);
    }
  }

  /** A pass only appends to the log and to the results, and what it appends to the results is Failed. */
  lemma {:induction false} ShowFoldMarks<R>(partial: bool, t: ShowTable<R>, records: seq<RemoteItem>, script: seq<Outcome>,
                                           start: ShowRun<R>, shows: seq<Id>, n: nat)
    requires n <= |shows|
    ensures var run := ShowFold(partial, t, records, script, start, shows, n);
            start.log <= run.log && start.marks <= run.marks
            && forall k :: |start.marks| <= k < |run.marks| ==> run.marks[k] == Failed
  {
    if n != 0 {
      ShowFoldMarks(partial, t, records, script, start, shows, n - 1);
      StepShape(partial, t, records, script, ShowFold(partial, t, records, script, start, shows, n - 1), shows[n - 1]);
    }
  }

  /** The counters of a pass are never negative, and under PARTIAL_SYNC they count the rows of the
      accepted batches as inserted and nothing as updated. */
  lemma {:induction false} ShowFoldCounts<R>(partial: bool, t: ShowTable<R>, records: seq<RemoteItem>, script: seq<Outcome>,
                                            start: ShowRun<R>, shows: seq<Id>, n: nat)
    requires start.counts == Counts(0, 0) && n <= |shows|
    ensures var run := ShowFold(partial, t, records, script, start, shows, n);
            run.counts.inserted >= 0 && run.counts.updated >= 0
            && (partial ==> run.counts == Counts(RowsAccepted(run.calls) - RowsAccepted(start.calls), 0))
  {
    if n != 0 {
      var acc := ShowFold(partial, t, records, script, start, shows, n - 1);
      ShowFoldCounts(partial, t, records, script, start, shows, n - 1);
      ShowFoldCalls(partial, t, records, script, start, shows, n - 1);
      StepShape(partial, t, records, script, acc, shows[n - 1]);
      var next := ShowStep(partial, t, records, script, acc, shows[n - 1]);
      if next.calls != acc.calls {
        assert next.calls[..|next.calls| - 1] == acc.calls;
      }
    }
  }

  /** A pass only adds rows, and only rows of its own records. */
  lemma {:induction false} ShowFoldKeys<R>(partial: bool, t: ShowTable<R>, records: seq<RemoteItem>, script: seq<Outcome>,
                                          start: ShowRun<R>, shows: seq<Id>, n: nat)
    requires n <= |shows|
    ensures var run := ShowFold(partial, t, records, script, start, shows, n);
            start.m.Keys <= run.m.Keys <= start.m.Keys + DefinedIds(records)
  {
    if n != 0 {
      var acc := ShowFold(partial, t, records, script, start, shows, n - 1);
      ShowFoldKeys(partial, t, records, script, start, shows, n - 1);
      var batch := ShowBatch(partial, StoredOfShow(acc.m, t.seriesOf, shows[n - 1]), records, shows[n - 1]);
      RowsOfIds(t.rowOf, batch);
      assert DefinedIds(batch) <= DefinedIds(records);
    }
  }

  /** An iteration whose call (if it makes one) is accepted keeps every stored row and leaves each
      record of its series with an id stored, whether submitted or already present. */
  lemma StepStores<R>(partial: bool, t: ShowTable<R>, records: seq<RemoteItem>, script: seq<Outcome>,
                      acc: ShowRun<R>, show: Id)
    requires var next := ShowStep(partial, t, records, script, acc, show);
             |next.calls| == |acc.calls| + 1 ==> next.calls[|acc.calls|].outcome.SUCCESS?
    ensures var next := ShowStep(partial, t, records, script, acc, show);
            acc.m.Keys <= next.m.Keys
            && forall r :: r in records && r.id.Some? && r.seriesId == show ==> r.id.value in next.m
  {
    var existing := StoredOfShow(acc.m, t.seriesOf, show);
    var batch := ShowBatch(partial, existing, records, show);
    RowsOfIds(t.rowOf, batch);
  }

  /** A pass whose calls are all accepted had its first `n - 1` iterations accepted, and the call
      of its last iteration (if any) too. */
  lemma FoldAcceptedStep<R>(partial: bool, t: ShowTable<R>, records: seq<RemoteItem>, script: seq<Outcome>,
                            start: ShowRun<R>, shows: seq<Id>, n: nat)
    requires 0 < n <= |shows|
    requires AllAccepted(ShowFold(partial, t, records, script, start, shows, n).calls, |start.calls|)
    ensures var acc := ShowFold(partial, t, records, script, start, shows, n - 1);
            var next := ShowStep(partial, t, records, script, acc, shows[n - 1]);
            AllAccepted(acc.calls, |start.calls|)
            && (|next.calls| == |acc.calls| + 1 ==> next.calls[|acc.calls|].outcome.SUCCESS?)
  {
    var acc := ShowFold(partial, t, records, script, start, shows, n - 1);
    var calls := ShowStep(partial, t, records, script, acc, shows[n - 1]).calls;
    assert calls == ShowFold(partial, t, records, script, start, shows, n).calls;
    StepPrefix(partial, t, records, script, acc, shows[n - 1]);
    ShowFoldCalls(partial, t, records, script, start, shows, n - 1);
    assert |start.calls| <= |acc.calls|;
    forall k | |start.calls| <= k < |acc.calls| ensures acc.calls[k].outcome.SUCCESS? {
      assert acc.calls[k] == calls[k];
    }
  }

  lemma InPrefix(shows: seq<Id>, n: nat, x: Id)
    requires 0 < n <= |shows| && x in shows[..n]
    ensures x == shows[n - 1] || x in shows[..n - 1]
  {
    assert shows[..n] == shows[..n - 1] + [shows[n - 1]];
  }

  /** When every call of a pass is accepted, each record with an id whose series the pass has
      reached is stored, whether it was submitted or, under PARTIAL_SYNC, already present. */
  lemma {:induction false} ShowFoldStores<R>(partial: bool, t: ShowTable<R>, records: seq<RemoteItem>, script: seq<Outcome>,
                                            start: ShowRun<R>, shows: seq<Id>, n: nat)
    requires n <= |shows|
    requires AllAccepted(ShowFold(partial, t, records, script, start, shows, n).calls, |start.calls|)
    ensures var run := ShowFold(partial, t, records, script, start, shows, n);
            forall r :: r in records && r.id.Some? && r.seriesId in shows[..n] ==> r.id.value in run.m
  {
    if n != 0 {
      var acc := ShowFold(partial, t, records, script, start, shows, n - 1);
      FoldAcceptedStep(partial, t, records, script, start, shows, n);
      ShowFoldStores(partial, t, records, script, start, shows, n - 1);
      StepStores(partial, t, records, script, acc, shows[n - 1]);
      forall r | r in records && r.id.Some? && r.seriesId in shows[..n]
        ensures r.id.value in ShowFold(partial, t, records, script, start, shows, n).m
      {
        InPrefix(shows, n, r.seriesId);
      }
    }
  }

  /** A whole pass over the series of its records: when every call is accepted, the table ends up
      holding exactly the rows it held plus one row per defined record id, under both sync modes. */
  lemma PassStoresAll<R>(partial: bool, t: ShowTable<R>, records: seq<RemoteItem>, script: seq<Outcome>, start: ShowRun<R>)
    requires AllAccepted(ShowFold(partial, t, records, script, start, SeriesIds(records), |records|).calls, |start.calls|)
    ensures ShowFold(partial, t, records, script, start, SeriesIds(records), |records|).m.Keys
            == start.m.Keys + DefinedIds(records)
  {
    var shows := SeriesIds(records);
    ShowFoldKeys(partial, t, records, script, start, shows, |records|);
    ShowFoldStores(partial, t, records, script, start, shows, |records|);
    assert shows[..|records|] == shows;
    forall r | r in records ensures r.seriesId in shows {
      var k :| 0 <= k < |records| && records[k] == r;
      assert shows[k] == r.seriesId;
    }
  }

  /** One iteration of `syncSeasons`. */
  method SeasonIteration(task: SyncTask, store: Store, partial: bool, seasons: seq<RemoteItem>, show: Id, counts: Counts)
    returns (next: Counts)
    modifies task`calls, task`loggedData, task`results, store`seasons
    ensures var r := ShowStep(partial, SeasonPass, seasons, task.script,
                              ShowRun(old(store.seasons), old(task.calls), counts, old(task.loggedData), old(task.results)), show);
            ShowRun(store.seasons, task.calls, next, task.loggedData, task.results) == r
  {
    next := counts;
    var existing := StoredOfShow(store.seasons, SeasonSeries, show);
    var batch := ShowBatch(partial, existing, seasons, show);
    if |batch| != 0 {
      var o := Submit(task, SeasonsTable, Insert, |batch|, false);
      if o.SUCCESS? {
        store.seasons := store.seasons + ToMap(RowsOf(SeasonRowOf, batch));
        next := Plus(counts, BatchCounts(partial, |batch|, |existing|));
      } else {
        task.loggedData := task.loggedData + [ErrorLine(task.calls[|task.calls| - 1])];
        task.results := task.results + [Failed];
      }
    }
  }

  method SyncSeasons(task: SyncTask, store: Store, seasons: seq<RemoteItem>) returns (counts: Counts)
    modifies task`calls, task`loggedData, task`results, store`seasons
    ensures var run := ShowFold(task.taskName == PartialSync, SeasonPass, seasons, task.script,
                                ShowRun(old(store.seasons), old(task.calls), Counts(0, 0), old(task.loggedData), old(task.results)),
                                SeriesIds(seasons), |seasons|);
            ShowRun(store.seasons, task.calls, counts, task.loggedData, task.results) == run
  {
    var shows := SeriesIds(seasons);
    var partial := task.taskName == PartialSync;
    ghost var start := ShowRun(store.seasons, task.calls, Counts(0, 0), task.loggedData, task.results);
    counts := Counts(0, 0);
    var i := 0;
    while i < |shows|
      invariant 0 <= i <= |shows|
      invariant var run := ShowFold(partial, SeasonPass, seasons, task.script, start, shows, i);
                ShowRun(store.seasons, task.calls, counts, task.loggedData, task.results) == run
    {
      counts := SeasonIteration(task, store, partial, seasons, shows[i], counts);
      i := i + 1;
    }
  }

  /** One iteration of `syncEpisodes`. */
  method EpisodeIteration(task: SyncTask, store: Store, partial: bool, episodes: seq<RemoteItem>, show: Id, counts: Counts)
    returns (next: Counts)
    modifies task`calls, task`loggedData, task`results, store`episodes
    ensures var r := ShowStep(partial, EpisodePass, episodes, task.script,
                              ShowRun(old(store.episodes), old(task.calls), counts, old(task.loggedData), old(task.results)), show);
            ShowRun(store.episodes, task.calls, next, task.loggedData, task.results) == r
  {
    next := counts;
    var existing := StoredOfShow(store.episodes, EpisodeSeries, show);
    var batch := ShowBatch(partial, existing, episodes, show);
    if |batch| != 0 {
      var o := Submit(task, EpisodesTable, Insert, |batch|, false);
      if o.SUCCESS? {
        store.episodes := store.episodes + ToMap(RowsOf(EpisodeRowOf, batch));
        next := Plus(counts, BatchCounts(partial, |batch|, |existing|));
      } else {
        task.loggedData := task.loggedData + [ErrorLine(task.calls[|task.calls| - 1])];
        task.results := task.results + [Failed];
      }
    }
  }

  method SyncEpisodes(task: SyncTask, store: Store, episodes: seq<RemoteItem>) returns (counts: Counts)
    modifies task`calls, task`loggedData, task`results, store`episodes
    ensures var run := ShowFold(task.taskName == PartialSync, EpisodePass, episodes, task.script,
                                ShowRun(old(store.episodes), old(task.calls), Counts(0, 0), old(task.loggedData), old(task.results)),
                                SeriesIds(episodes), |episodes|);
            ShowRun(store.episodes, task.calls, counts, task.loggedData, task.results) == run
  {
    var shows := SeriesIds(episodes);
    var partial := task.taskName == PartialSync;
    ghost var start := ShowRun(store.episodes, task.calls, Counts(0, 0), task.loggedData, task.results);
    counts := Counts(0, 0);
    var i := 0;
    while i < |shows|
      invariant 0 <= i <= |shows|
      invariant var run := ShowFold(partial, EpisodePass, episodes, task.script, start, shows, i);
                ShowRun(store.episodes, task.calls, counts, task.loggedData, task.results) == run
    {
      counts := EpisodeIteration(task, store, partial, episodes, shows[i], counts);
      i := i + 1;
    }
  }
}
