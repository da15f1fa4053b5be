/** The playback-reporting import (`syncPlaybackPluginData` of backend/routes/sync.js): the plugin
    check, the `WHERE` clause built from the bounds of the stored history, the insert of the
    fetched rows and the storage-side fold into the activity table, which is not part of this model
    and is taken as a parameter. Dates are integers; their text form (the `moment` formatting) is
    a parameter too. */
module PluginImport {
  import opened Wrappers
  import opened Catalog
  import opened TaskStates
  import opened SyncRun

  // ---- Bounds read from the store.

  /** `MIN("ActivityDateInserted")`: None (SQL NULL) on an empty table. */
  function OldestActivity(acts: seq<Activity>): (r: Option<int>)
    ensures r.None? <==> |acts| == 0
    ensures r.Some? ==> (exists k :: 0 <= k < |acts| && acts[k].activityDateInserted == r.value)
                        && forall k :: 0 <= k < |acts| ==> r.value <= acts[k].activityDateInserted
  {
    if |acts| == 0 then None
    else
      var rest := OldestActivity(acts[1..]);
      if rest.None? || acts[0].activityDateInserted <= rest.value then Some(acts[0].activityDateInserted) else rest
  }

  /** `MAX("ActivityDateInserted")`: None on an empty table. */
  function NewestActivity(acts: seq<Activity>): (r: Option<int>)
    ensures r.None? <==> |acts| == 0
    ensures r.Some? ==> (exists k :: 0 <= k < |acts| && acts[k].activityDateInserted == r.value)
                        && forall k :: 0 <= k < |acts| ==> acts[k].activityDateInserted <= r.value
  {
    if |acts| == 0 then None
    else
      var rest := NewestActivity(acts[1..]);
      if rest.None? || acts[0].activityDateInserted >= rest.value then Some(acts[0].activityDateInserted) else rest
  }

  /** `MAX(rowid)` of the imported plugin rows: None on an empty table. */
  function MaxRowId(rows: seq<PluginRow>): (r: Option<int>)
    ensures r.None? <==> |rows| == 0
    ensures r.Some? ==> (exists k :: 0 <= k < |rows| && rows[k].rowId == r.value)
                        && forall k :: 0 <= k < |rows| ==> rows[k].rowId <= r.value
  {
    if |rows| == 0 then None
    else
      var rest := MaxRowId(rows[1..]);
      if rest.None? || rows[0].rowId >= rest.value then Some(rows[0].rowId) else rest
  }

  /** JavaScript truthiness of the row-id bound: NULL and 0 are falsy. */
  predicate Truthy(n: Option<int>)
  {
    n.Some? && n.value != 0
  }

  // ---- The query.

  /** The decimal text of a whole number. */
  function NatText(n: nat): string
  {
    if n < 10 then [DigitChar(n)] else NatText(n / 10) + [DigitChar(n % 10)]
  }

  function DigitChar(d: nat): char
    requires d < 10
  {
    "0123456789"[d]
  }

  function IntText(n: int): string
  {
    if n < 0 then "-" + NatText(-n) else NatText(n)
  }

  /** The filter the query ends up with. */
  datatype Filter =
    | Outside(older: string, newer: string)
    | Before(older: string, afterRow: Option<int>)
    | Since(newer: string, afterRow: Option<int>)
    | RowsAfter(rowId: int)
    | Everything

  /** The filter for the formatted oldest and newest dates and the row-id bound. */
  function FilterFor(oldest: Option<string>, newest: Option<string>, maxRowId: Option<int>): Filter
  {
    var after := if Truthy(maxRowId) then Some(maxRowId.value) else None;
    match (oldest, newest)
    case (Some(o), Some(n)) => Outside(o, n)
    case (Some(o), None) => Before(o, after)
    case (None, Some(n)) => Since(n, after)
    case (None, None) => if Truthy(maxRowId) then RowsAfter(maxRowId.value) else Everything
  }

  function RowClause(afterRow: Option<int>): string
  {
    if afterRow.Some? then " AND rowid > " + IntText(afterRow.value) else ""
  }

  /** The `WHERE` clause of a filter, with its leading space; empty for no filter. */
  function WhereClause(f: Filter): string
  {
    match f
    case Outside(o, n) => " WHERE (DateCreated < '" + o + "' or DateCreated > '" + n + "')"
    case Before(o, a) => " WHERE DateCreated < '" + o + "'" + RowClause(a)
    case Since(n, a) => " WHERE DateCreated > '" + n + "'" + RowClause(a)
    case RowsAfter(r) => " WHERE rowid > " + IntText(r)
    case Everything => ""
  }

  const QueryHead := "SELECT rowid, * FROM PlaybackActivity"
  const QueryTail := " order by rowid"

  /** The query the import sends to the plugin. */
  function PluginQuery(oldest: Option<string>, newest: Option<string>, maxRowId: Option<int>): string
  {
    QueryHead + WhereClause(FilterFor(oldest, newest, maxRowId)) + QueryTail
  }

  /** The query builder, by successive reassignments of the query text. */
  method BuildPluginQuery(oldest: Option<string>, newest: Option<string>, maxRowId: Option<int>) returns (query: string)
    ensures query == PluginQuery(oldest, newest, maxRowId)
  {
    query := QueryHead;
    if oldest.Some? && newest.Some? {
      query := query + " WHERE (DateCreated < '" + oldest.value + "' or DateCreated > '" + newest.value + "')";
      Append6(QueryHead, " WHERE (DateCreated < '", oldest.value, "' or DateCreated > '", newest.value, "')");
      assert query == QueryHead + WhereClause(FilterFor(oldest, newest, maxRowId));
    }
    if oldest.Some? && newest.None? {
      query := query + " WHERE DateCreated < '" + oldest.value + "'";
      Append4(QueryHead, " WHERE DateCreated < '", oldest.value, "'");
      ghost var w := " WHERE DateCreated < '" + oldest.value + "'";
      if Truthy(maxRowId) {
        query := query + " AND rowid > " + IntText(maxRowId.value);
        Append3(QueryHead, w, " AND rowid > " + IntText(maxRowId.value));
      }
      assert query == QueryHead + WhereClause(FilterFor(oldest, newest, maxRowId));
    }
    if oldest.None? && newest.Some? {
      query := query + " WHERE DateCreated > '" + newest.value + "'";
      Append4(QueryHead, " WHERE DateCreated > '", newest.value, "'");
      ghost var w := " WHERE DateCreated > '" + newest.value + "'";
      if Truthy(maxRowId) {
        query := query + " AND rowid > " + IntText(maxRowId.value);
        Append3(QueryHead, w, " AND rowid > " + IntText(maxRowId.value));
      }
      assert query == QueryHead + WhereClause(FilterFor(oldest, newest, maxRowId));
    }
    if oldest.None? && newest.None? && Truthy(maxRowId) {
      query := query + " WHERE rowid > " + IntText(maxRowId.value);
    }
    query := query + QueryTail;
  }

  lemma Append3(a: string, b: string, c: string)
    ensures a + b + c == a + (b + c)
  {
  }

  lemma Append4(a: string, b: string, c: string, d: string)
    ensures a + b + c + d == a + (b + c + d)
  {
  }

  lemma Append6(a: string, b: string, c: string, d: string, e: string, f: string)
    ensures a + b + c + d + e + f == a + (b + c + d + e + f)
  {
  }

  /** The query always selects from the plugin's table and orders by row id; it has a `WHERE`
      clause exactly when a date or a truthy row-id bound is known. */
  lemma PluginQueryShape(oldest: Option<string>, newest: Option<string>, maxRowId: Option<int>)
    ensures var q := PluginQuery(oldest, newest, maxRowId);
            var w := WhereClause(FilterFor(oldest, newest, maxRowId));
            && q == QueryHead + w + QueryTail
            && (w == "" <==> oldest.None? && newest.None? && !Truthy(maxRowId))
            && (w != "" ==> w[..7] == " WHERE ")
  {
    var w := WhereClause(FilterFor(oldest, newest, maxRowId));
    if oldest.Some? || newest.Some? || Truthy(maxRowId) {
      assert |w| >= 7 && w[..7] == " WHERE ";
    }
  }

  /** The row-id bound of a filter. */
  function RowBound(f: Filter): Option<int>
  {
    match f
    case Outside(_, _) => None
    case Before(_, a) => a
    case Since(_, a) => a
    case RowsAfter(r) => Some(r)
    case Everything => None
  }

  /** The row-id bound is used exactly when it is truthy and at most one of the two dates is known;
      with both dates known, the query is the same whatever the bound. */
  lemma RowBoundOnlyWithoutBothDates(oldest: Option<string>, newest: Option<string>, m1: Option<int>, m2: Option<int>)
    ensures RowBound(FilterFor(oldest, newest, m1)) == if (oldest.Some? && newest.Some?) || !Truthy(m1) then None else m1
    ensures oldest.Some? && newest.Some? ==> PluginQuery(oldest, newest, m1) == PluginQuery(oldest, newest, m2)
  {
  }

  /** The store gives both dates or neither: with playback history the query is always the
      two-sided date filter and the row-id bound is never used; without history, only the row-id
      bound can filter. The one-sided branches of the builder are never taken. */
  lemma StoredBoundsFilter(acts: seq<Activity>, plugin: seq<PluginRow>, format: int -> string)
    ensures var o := OldestActivity(acts);
            var n := NewestActivity(acts);
            var f := FilterFor(if o.Some? then Some(format(o.value)) else None,
                               if n.Some? then Some(format(n.value)) else None, MaxRowId(plugin));
            && (|acts| > 0 ==> f.Outside? && f.older == format(o.value) && f.newer == format(n.value))
            && (|acts| == 0 ==> f == if Truthy(MaxRowId(plugin)) then RowsAfter(MaxRowId(plugin).value) else Everything)
  {
  }

  // ---- The import.

  const SyncingLine := Message("Syncing...")
  const NoNewDataLine := Message("No new data to insert.")
  const ConstraintsLine := Message("Determining query constraints.")
  const QueryBuiltLine := Message("Query built. Executing.")
  const FormattingLine := Message("Running process to format data to be inserted into the Activity Table")
  const ImportedLine := Message("Process complete. Data has been imported.")
  const ProcessedLine := Message("Any imported data has been processed.")
  const CompleteLine := Message("Playback Reporting Plugin Sync Complete")

  /** The configuration file names that identify the playback-reporting plugin. */
  const PluginFiles: set<string> := {"playback_reporting.xml", "Jellyfin.Plugin.PlaybackReporting.xml"}

  /** The installed plugins (their configuration file names, None when a plugin has none) include
      the playback-reporting plugin. */
  predicate HasPlaybackPlugin(installed: seq<Option<string>>)
  {
    exists k :: 0 <= k < |installed| && installed[k].Some? && installed[k].value in PluginFiles
  }

  /** Some(format(d)) for a known date `d`. */
  function Formatted(d: Option<int>, format: int -> string): Option<string>
  {
    if d.Some? then Some(format(d.value)) else None
  }

  /** The query the import sends for the tables `t`. */
  function ImportQuery(t: Tables, format: int -> string): string
  {
    PluginQuery(Formatted(OldestActivity(t.activity), format), Formatted(NewestActivity(t.activity), format), MaxRowId(t.pluginData))
  }

  /** The lines the plugin branch logs around the insert of `n` fetched rows answered `o`. */
  function InsertLog(n: nat, o: Outcome): seq<LogLine>
  {
    if n == 0 then []
    else [Message("Inserting " + NatText(n) + " Rows.")]
         + if o.SUCCESS? then [Message(NatText(n) + " Rows have been inserted."),
                               FormattingLine]
           else [Message("Error: " + o.message)]
  }

  /** The insert of the fetched rows, when there are any; the gateway call is not checked. */
  method InsertFetched(task: SyncTask, store: Store, rows: seq<PluginRow>)
    modifies store`pluginData, task`calls, task`loggedData, task`results
    ensures var o := AnswerAt(task.script, |old(task.calls)|);
            && task.calls == old(task.calls) + (if |rows| > 0 then [BulkCall(PluginDataTable, Insert, |rows|, o, false)] else [])
            && store.pluginData == old(store.pluginData) + (if |rows| > 0 && o.SUCCESS? then rows else [])
            && task.results == old(task.results) + (if |rows| > 0 && o.FAILURE? then [Failed] else [])
            && task.loggedData == old(task.loggedData) + InsertLog(|rows|, o)
  {
    if |rows| > 0 {
      task.loggedData := task.loggedData + [Message("Inserting " + NatText(|rows|) + " Rows.")];
      var o := Submit(task, PluginDataTable, Insert, |rows|, false);
      if o.SUCCESS? {
        store.pluginData := store.pluginData + rows;
        task.loggedData := task.loggedData + [Message(NatText(|rows|) + " Rows have been inserted."),
                                              FormattingLine];
      } else {
        task.loggedData := task.loggedData + [Message("Error: " + o.message)];
        task.results := task.results + [Failed];
      }
    } else {
      assert store.pluginData == old(store.pluginData) + [];
    }
  }

  /** The lines the plugin branch logs for `n` fetched rows whose insert is answered `o`. */
  function PluginBranchLog(n: nat, o: Outcome): seq<LogLine>
  {
    [ConstraintsLine, QueryBuiltLine]
    + InsertLog(n, o) + [ImportedLine]
  }

  lemma Assoc<T>(a: seq<T>, b: seq<T>, c: seq<T>)
    ensures a + b + c == a + (b + c)
  {
  }

  /** The branch taken when the plugin is installed: build the query from the stored bounds, fetch,
      insert. */
  method ImportFromPlugin(task: SyncTask, store: Store, fetch: string -> seq<PluginRow>, format: int -> string)
    modifies store`pluginData, task`calls, task`loggedData, task`results
    ensures var rows := fetch(ImportQuery(old(store.Snapshot()), format));
            var o := AnswerAt(task.script, |old(task.calls)|);
            && task.calls == old(task.calls) + (if |rows| > 0 then [BulkCall(PluginDataTable, Insert, |rows|, o, false)] else [])
            && store.pluginData == old(store.pluginData) + (if |rows| > 0 && o.SUCCESS? then rows else [])
            && task.results == old(task.results) + (if |rows| > 0 && o.FAILURE? then [Failed] else [])
            && task.loggedData == old(task.loggedData) + PluginBranchLog(|rows|, o)
  {
    ghost var log0 := task.loggedData;
    task.loggedData := task.loggedData + [ConstraintsLine];
    var oldest := OldestActivity(store.activity);
    var newest := NewestActivity(store.activity);
    var maxRowId := MaxRowId(store.pluginData);
    var query := BuildPluginQuery(Formatted(oldest, format), Formatted(newest, format), maxRowId);
    task.loggedData := task.loggedData + [QueryBuiltLine];
    ghost var head := [ConstraintsLine, QueryBuiltLine];
    assert task.loggedData == log0 + head;
    ghost var o := AnswerAt(task.script, |task.calls|);
    var rows := fetch(query);
    InsertFetched(task, store, rows);
    Assoc(log0, head, InsertLog(|rows|, o));
    task.loggedData := task.loggedData + [ImportedLine];
    Assoc(log0, head + InsertLog(|rows|, o), [ImportedLine]);
  }

  /** `syncPlaybackPluginData()`. `installed` is what the server reports, `fetch` answers the
      plugin query, `format` is the date formatting and `fold` the storage procedure that moves
      imported rows into the activity table. Without the plugin only "No new data to insert." is
      logged; the fold runs either way. A failed insert marks the run failed and the import goes
      on. */
  method SyncPlaybackPluginData(task: SyncTask, store: Store, installed: seq<Option<string>>,
                                fetch: string -> seq<PluginRow>, format: int -> string, fold: Tables -> Tables)
    modifies store, task`calls, task`loggedData, task`results
    ensures var rows := fetch(ImportQuery(old(store.Snapshot()), format));
            var submitted := HasPlaybackPlugin(installed) && |rows| > 0;
            task.calls == old(task.calls) + (if submitted then [BulkCall(PluginDataTable, Insert, |rows|, AnswerAt(task.script, |old(task.calls)|), false)] else [])
    ensures var t := old(store.Snapshot());
            var rows := fetch(ImportQuery(t, format));
            var inserted := HasPlaybackPlugin(installed) && |rows| > 0 && AnswerAt(task.script, |old(task.calls)|).SUCCESS?;
            store.Snapshot() == fold(if inserted then t.(pluginData := t.pluginData + rows) else t)
    ensures var rows := fetch(ImportQuery(old(store.Snapshot()), format));
            var failed := HasPlaybackPlugin(installed) && |rows| > 0 && AnswerAt(task.script, |old(task.calls)|).FAILURE?;
            task.results == old(task.results) + (if failed then [Failed] else [])
    ensures var rows := fetch(ImportQuery(old(store.Snapshot()), format));
            task.loggedData == old(task.loggedData) + [SyncingLine]
              + (if HasPlaybackPlugin(installed) then PluginBranchLog(|rows|, AnswerAt(task.script, |old(task.calls)|))
                 else [NoNewDataLine])
              + [ProcessedLine, CompleteLine]
  {
    ghost var t := store.Snapshot();
    ghost var rows := fetch(ImportQuery(t, format));
    ghost var o := AnswerAt(task.script, |task.calls|);
    task.loggedData := task.loggedData + [SyncingLine];
    var present := HasPlaybackPlugin(installed);
    if !present {
      task.loggedData := task.loggedData + [NoNewDataLine];
    } else {
      ImportFromPlugin(task, store, fetch, format);
      assert store.Snapshot() == if |rows| > 0 && o.SUCCESS? then t.(pluginData := t.pluginData + rows) else t;
    }
    store.Restore(fold(store.Snapshot()));
    task.loggedData := task.loggedData + [ProcessedLine, CompleteLine];
  }
}
