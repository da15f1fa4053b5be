/** Item-info selection (`syncItemInfo` of backend/routes/sync.js): one info row per media source
    of the fetched movies, audio items and episodes, collected in two loops and written with a
    single gateway insert whose FAILURE is logged without throwing. */
module SyncItemInfo {
  import opened Wrappers
  import opened TaskStates
  import opened TaskLog
  import opened Catalog
  import opened SyncRun

  /** The library records whose media sources are collected: not a series, not a folder, with an id. */
  function ItemInfoSources(items: seq<RemoteItem>): (r: seq<RemoteItem>)
    ensures forall x :: x in r <==> x in items && x.itemType != Series && x.itemType != Folder && x.id.Some?
  {
    if items == [] then []
    else
      var x := items[0];
      (if x.itemType != Series && x.itemType != Folder && x.id.Some? then [x] else []) + ItemInfoSources(items[1..])
  }

  /** The season and episode records whose media sources are collected: episodes with an id. */
  function EpisodeInfoSources(records: seq<RemoteItem>): (r: seq<RemoteItem>)
    ensures forall x :: x in r <==> x in records && x.itemType == Episode && x.id.Some?
  {
    if records == [] then []
    else
      var x := records[0];
      (if x.itemType == Episode && x.id.Some? then [x] else []) + EpisodeInfoSources(records[1..])
  }

  /** The info rows of a record's media sources, keyed by media-source id, in order. */
  function InfoRows(sources: seq<MediaSource>, kind: InfoKind): (r: seq<(Id, InfoRow)>)
    ensures |r| == |sources|
    ensures forall k :: 0 <= k < |r| ==> r[k] == (sources[k].id, InfoRowOf(sources[k], kind))
  {
    if sources == [] then [] else [(sources[0].id, InfoRowOf(sources[0], kind))] + InfoRows(sources[1..], kind)
  }

  /** Whether a record's media sources are collected: under FULL_SYNC always, under PARTIAL_SYNC
      only when no info row carries the record's id, under any other task name never. */
  predicate InfoSelected(taskName: TaskName, stored: set<Id>, r: RemoteItem)
    requires r.id.Some?
  {
    (r.id.value !in stored && taskName == PartialSync) || taskName == FullSync
  }

  /** The collected rows and one pair of counters. */
  datatype InfoPass = InfoPass(rows: seq<(Id, InfoRow)>, inserted: int, updated: int)

  /** One loop iteration: the per-record query finds at most one info row with the record's id. */
  function InfoStep(taskName: TaskName, stored: set<Id>, kind: InfoKind, acc: InfoPass, r: RemoteItem): InfoPass
    requires r.id.Some?
  {
    var existing := if r.id.value in stored then 1 else 0;
    var mapped := InfoRows(r.mediaSources, kind);
    if !InfoSelected(taskName, stored, r) then acc
    else if |mapped| == 0 then acc.(rows := acc.rows + mapped)
    else InfoPass(acc.rows + mapped, acc.inserted + |mapped| - existing, acc.updated + existing)
  }

  predicate AllIdentified(records: seq<RemoteItem>)
  {
    forall k :: 0 <= k < |records| ==> records[k].id.Some?
  }

  /** The first `n` iterations of a loop over `records`, starting from `start`. */
  function InfoFold(taskName: TaskName, stored: set<Id>, kind: InfoKind, start: InfoPass, records: seq<RemoteItem>, n: nat): InfoPass
    requires AllIdentified(records) && n <= |records|
  {
    if n == 0 then start
    else InfoStep(taskName, stored, kind, InfoFold(taskName, stored, kind, start, records, n - 1), records[n - 1])
  }

  // ---- An independent description of what is collected.

  /** The records whose media sources are collected, in order. */
  function SelectedRecords(taskName: TaskName, stored: set<Id>, records: seq<RemoteItem>): (r: seq<RemoteItem>)
    requires AllIdentified(records)
  {
    if records == [] then []
    else
      var last := records[|records| - 1];
      SelectedRecords(taskName, stored, records[..|records| - 1]) + if InfoSelected(taskName, stored, last) then [last] else []
  }

  /** All info rows of a list of records, in order. */
  function AllInfoRows(records: seq<RemoteItem>, kind: InfoKind): seq<(Id, InfoRow)>
  {
    if records == [] then [] else AllInfoRows(records[..|records| - 1], kind) + InfoRows(records[|records| - 1].mediaSources, kind)
  }

  /** Under FULL_SYNC every record is selected; under PARTIAL_SYNC exactly those whose id carries
      no info row; under any other task name none. */
  lemma {:induction false} SelectedRecordsFacts(taskName: TaskName, stored: set<Id>, records: seq<RemoteItem>)
    requires AllIdentified(records)
    ensures taskName == FullSync ==> SelectedRecords(taskName, stored, records) == records
    ensures taskName == PartialSync ==>
              forall r :: r in SelectedRecords(taskName, stored, records) <==> r in records && r.id.value !in stored
    ensures taskName != FullSync && taskName != PartialSync ==> SelectedRecords(taskName, stored, records) == []
  {
    if records != [] {
      var init := records[..|records| - 1];
      SelectedRecordsFacts(taskName, stored, init);
      assert records == init + [records[|records| - 1]];
    }
  }

  lemma SelectedStep(taskName: TaskName, stored: set<Id>, records: seq<RemoteItem>, n: nat)
    requires AllIdentified(records) && 0 < n <= |records|
    ensures AllIdentified(records[..n]) && AllIdentified(records[..n - 1])
    ensures SelectedRecords(taskName, stored, records[..n])
            == SelectedRecords(taskName, stored, records[..n - 1])
               + if InfoSelected(taskName, stored, records[n - 1]) then [records[n - 1]] else []
  {
    assert records[..n][..n - 1] == records[..n - 1];
  }

  lemma InfoStepRows(taskName: TaskName, stored: set<Id>, kind: InfoKind, acc: InfoPass, r: RemoteItem)
    requires r.id.Some?
    ensures InfoStep(taskName, stored, kind, acc, r).rows
            == acc.rows + if InfoSelected(taskName, stored, r) then InfoRows(r.mediaSources, kind) else []
  {
  }

  lemma AllInfoRowsSnoc(before: seq<RemoteItem>, r: RemoteItem, kind: InfoKind)
    ensures AllInfoRows(before + [r], kind) == AllInfoRows(before, kind) + InfoRows(r.mediaSources, kind)
  {
    assert (before + [r])[..|before + [r]| - 1] == before;
  }

  lemma ConcatAssoc<T>(a: seq<T>, b: seq<T>, c: seq<T>)
    ensures a + b + c == a + (b + c)
  {
  }

  /** The rows a loop collects are those of the selected records, in order. */
  lemma {:induction false} InfoFoldRows(taskName: TaskName, stored: set<Id>, kind: InfoKind, start: InfoPass,
                                        records: seq<RemoteItem>, n: nat)
    requires AllIdentified(records) && n <= |records|
    ensures AllIdentified(records[..n])
    ensures InfoFold(taskName, stored, kind, start, records, n).rows
            == start.rows + AllInfoRows(SelectedRecords(taskName, stored, records[..n]), kind)
  {
    if n == 0 {
      assert records[..n] == [];
    } else {
      SelectedStep(taskName, stored, records, n);
      InfoFoldRows(taskName, stored, kind, start, records, n - 1);
      var r := records[n - 1];
      var before := SelectedRecords(taskName, stored, records[..n - 1]);
      InfoStepRows(taskName, stored, kind, InfoFold(taskName, stored, kind, start, records, n - 1), r);
      if InfoSelected(taskName, stored, r) {
        AllInfoRowsSnoc(before, r, kind);
        ConcatAssoc(start.rows, AllInfoRows(before, kind), InfoRows(r.mediaSources, kind));
      } else {
        assert before + [] == before;
        assert InfoFold(taskName, stored, kind, start, records, n - 1).rows + [] == InfoFold(taskName, stored, kind, start, records, n - 1).rows;
      }
    }
  }

  /** The counters of a loop: inserted plus updated is the number of collected rows; under
      PARTIAL_SYNC nothing counts as updated; neither counter is ever negative. */
  lemma {:induction false} InfoFoldCounts(taskName: TaskName, stored: set<Id>, kind: InfoKind, start: InfoPass,
                                          records: seq<RemoteItem>, n: nat)
    requires AllIdentified(records) && n <= |records|
    requires start.inserted == 0 && start.updated == 0
    ensures var p := InfoFold(taskName, stored, kind, start, records, n);
            p.inserted >= 0 && p.updated >= 0 && (taskName == PartialSync ==> p.updated == 0)
            && (taskName == PartialSync || taskName == FullSync ==> p.inserted + p.updated == |p.rows| - |start.rows|)
  {
    if n != 0 {
      InfoFoldCounts(taskName, stored, kind, start, records, n - 1);
    }
  }

  /** The info counters `syncItemInfo` returns. */
  datatype InfoCounts = InfoCounts(insertItem: int, updateItem: int, insertEpisode: int, updateEpisode: int)

  function ItemInfoPass(taskName: TaskName, stored: set<Id>, libraryItems: seq<RemoteItem>): InfoPass
  {
    var items := ItemInfoSources(libraryItems);
    InfoFold(taskName, stored, ItemFile, InfoPass([], 0, 0), items, |items|)
  }

  function EpisodeInfoPass(taskName: TaskName, stored: set<Id>, records: seq<RemoteItem>, collected: seq<(Id, InfoRow)>): InfoPass
  {
    var episodes := EpisodeInfoSources(records);
    InfoFold(taskName, stored, EpisodeFile, InfoPass(collected, 0, 0), episodes, |episodes|)
  }

  /** The loop over the movies and audio items. */
  method CollectItemInfo(task: SyncTask, store: Store, libraryItems: seq<RemoteItem>) returns (p: InfoPass)
    ensures p == ItemInfoPass(task.taskName, store.itemInfo.Keys, libraryItems)
  {
    var items := ItemInfoSources(libraryItems);
    p := InfoPass([], 0, 0);
    var i := 0;
    while i < |items|
      invariant 0 <= i <= |items|
      invariant p == InfoFold(task.taskName, store.itemInfo.Keys, ItemFile, InfoPass([], 0, 0), items, i)
    {
      var item := items[i];
      var existing := if item.id.value in store.itemInfo then 1 else 0;
      if (existing == 0 && task.taskName == PartialSync) || task.taskName == FullSync {
        var mapped := InfoRows(item.mediaSources, ItemFile);
        p := p.(rows := p.rows + mapped);
        if |mapped| != 0 {
          p := p.(inserted := p.inserted + |mapped| - existing, updated := p.updated + existing);
        }
      }
      i := i + 1;
    }
  }

  /** The loop over the episodes; it appends to the rows the item loop collected. */
  method CollectEpisodeInfo(task: SyncTask, store: Store, records: seq<RemoteItem>, collected: seq<(Id, InfoRow)>)
    returns (p: InfoPass)
    ensures p == EpisodeInfoPass(task.taskName, store.itemInfo.Keys, records, collected)
  {
    var episodes := EpisodeInfoSources(records);
    p := InfoPass(collected, 0, 0);
    var i := 0;
    while i < |episodes|
      invariant 0 <= i <= |episodes|
      invariant p == InfoFold(task.taskName, store.itemInfo.Keys, EpisodeFile, InfoPass(collected, 0, 0), episodes, i)
    {
      var episode := episodes[i];
      var existing := if episode.id.value in store.itemInfo then 1 else 0;
      if (existing == 0 && task.taskName == PartialSync) || task.taskName == FullSync {
        var mapped := InfoRows(episode.mediaSources, EpisodeFile);
        p := p.(rows := p.rows + mapped);
        if |mapped| != 0 {
          p := p.(inserted := p.inserted + |mapped| - existing, updated := p.updated + existing);
        }
      }
      i := i + 1;
    }
  }

  /** `syncItemInfo(seasonsAndEpisodes, libraryItems)`. */
  method SyncItemInfo(task: SyncTask, store: Store, seasonsAndEpisodes: seq<RemoteItem>, libraryItems: seq<RemoteItem>)
    returns (counts: InfoCounts)
    modifies task`calls, task`loggedData, task`results, store`itemInfo
    ensures var ip := ItemInfoPass(task.taskName, old(store.itemInfo).Keys, libraryItems);
            var ep := EpisodeInfoPass(task.taskName, old(store.itemInfo).Keys, seasonsAndEpisodes, ip.rows);
            counts == InfoCounts(ip.inserted, ip.updated, ep.inserted, ep.updated)
    ensures var ip := ItemInfoPass(task.taskName, old(store.itemInfo).Keys, libraryItems);
            var rows := EpisodeInfoPass(task.taskName, old(store.itemInfo).Keys, seasonsAndEpisodes, ip.rows).rows;
            && (|rows| == 0 ==> task.calls == old(task.calls))
            && (|rows| != 0 ==> task.calls == old(task.calls) + [BulkCall(ItemInfoTable, Insert, |rows|, AnswerAt(task.script, |old(task.calls)|), false)])
            && store.itemInfo == (if |rows| != 0 && AnswerAt(task.script, |old(task.calls)|).SUCCESS? then old(store.itemInfo) + ToMap(rows) else old(store.itemInfo))
    ensures if |task.calls| > |old(task.calls)| && task.calls[|task.calls| - 1].outcome.FAILURE?
            then task.loggedData == old(task.loggedData) + [ErrorLine(task.calls[|task.calls| - 1])]
                 && task.results == old(task.results) + [Failed]
            else task.loggedData == old(task.loggedData) && task.results == old(task.results)
  {
    var ip := CollectItemInfo(task, store, libraryItems);
    var ep := CollectEpisodeInfo(task, store, seasonsAndEpisodes, ip.rows);
    counts := InfoCounts(ip.inserted, ip.updated, ep.inserted, ep.updated);
    var rows := ep.rows;
    if |rows| != 0 {
      var o := Submit(task, ItemInfoTable, Insert, |rows|, false);
      if o.SUCCESS? {
        store.itemInfo := store.itemInfo + ToMap(rows);
      } else {
        task.loggedData := task.loggedData + [ErrorLine(task.calls[|task.calls| - 1])];
        task.results := task.results + [Failed];
      }
    }
  }
}
