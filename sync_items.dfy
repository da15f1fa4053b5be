/** Library-item ingestion and the set-difference archiving of items, seasons and episodes
    (`syncLibraryItems`, `archiveLibraryItems`, `archiveSeasonsAndEpisodes` of
    backend/routes/sync.js). All their gateway calls go through the throwing wrappers. */
module SyncItems {
  import opened Wrappers
  import opened TaskLog
  import opened Catalog
  import opened SyncRun

  /** The fetched records `syncLibraryItems` keeps: those whose `ParentId` is a stored library
      and, under PARTIAL_SYNC, whose id is not stored yet. Records without an id pass this filter;
      their mapped row is dropped afterwards. */
  function ItemBatch(partial: bool, libraries: set<Id>, existing: set<Id>, data: seq<RemoteItem>): (b: seq<RemoteItem>)
    ensures forall r :: r in b <==> r in data && r.parentId in libraries && (!partial || r.id.None? || r.id.value !in existing)
  {
    if data == [] then []
    else
      var r := data[0];
      var keep := r.parentId in libraries && (!partial || r.id.None? || r.id.value !in existing);
      (if keep then [r] else []) + ItemBatch(partial, libraries, existing, data[1..])
  }

  /** The rows `syncLibraryItems` submits. */
  function ItemRows(partial: bool, libraries: set<Id>, existing: set<Id>, data: seq<RemoteItem>): seq<(Id, ItemRow)>
  {
    RowsOf(ItemRowOf, ItemBatch(partial, libraries, existing, data))
  }

  /** An id reaches the insert exactly when some fetched record carries it, lies under a stored
      library and, under PARTIAL_SYNC, is not stored yet. */
  lemma ItemAdmission(partial: bool, libraries: set<Id>, existing: set<Id>, data: seq<RemoteItem>, id: Id)
    ensures id in IdsOf(ItemRows(partial, libraries, existing, data))
            <==> exists r :: r in data && r.id == Some(id) && r.parentId in libraries && (!partial || id !in existing)
  {
    var batch := ItemBatch(partial, libraries, existing, data);
    RowsOfIds(ItemRowOf, batch);
    if exists r :: r in data && r.id == Some(id) && r.parentId in libraries && (!partial || id !in existing) {
      var r :| r in data && r.id == Some(id) && r.parentId in libraries && (!partial || id !in existing);
      assert r in batch;
    }
  }

  /** Under PARTIAL_SYNC the insert never overwrites a stored item. */
  lemma PartialKeepsStoredItems(libraries: set<Id>, items: map<Id, ItemRow>, data: seq<RemoteItem>)
    ensures var after := items + ToMap(ItemRows(true, libraries, items.Keys, data));
            forall id :: id in items ==> id in after && after[id] == items[id]
  {
    forall id | id in items
      ensures id !in IdsOf(ItemRows(true, libraries, items.Keys, data))
    {
      ItemAdmission(true, libraries, items.Keys, data, id);
    }
  }

  /** Upserts `rows` into the items table through the throwing insert wrapper, if there are any. */
  method UpsertItems(task: SyncTask, store: Store, rows: seq<(Id, ItemRow)>) returns (ok: bool)
    modifies task`calls, task`loggedData, task`throws, store`items
    ensures ok <==> |rows| == 0 || AnswerAt(task.script, |old(task.calls)|).SUCCESS?
    ensures |rows| == 0 ==> task.calls == old(task.calls)
    ensures |rows| != 0 ==> task.calls == old(task.calls) + [BulkCall(ItemsTable, Insert, |rows|, AnswerAt(task.script, |old(task.calls)|), true)]
    ensures ok ==> store.items == old(store.items) + ToMap(rows)
    ensures !ok ==> store.items == old(store.items)
    ensures Step(old(task.throws), task.throws, task.calls, ok)
    ensures ok ==> task.loggedData == old(task.loggedData)
    ensures !ok ==> task.loggedData == old(task.loggedData) + [ErrorLine(task.calls[|task.calls| - 1])]
  {
    ok := true;
    if |rows| > 0 {
      ok := InsertData(task, ItemsTable, |rows|);
      if ok {
        store.items := store.items + ToMap(rows);
      }
    } else {
      assert ToMap(rows) == map[];
    }
  }

  /** `syncLibraryItems(data)`. The counters compare the submitted rows with every stored item. */
  method SyncLibraryItems(task: SyncTask, store: Store, data: seq<RemoteItem>) returns (ok: bool, counts: Counts)
    modifies task`calls, task`loggedData, task`throws, store`items
    ensures ok <==> |ItemRows(task.taskName == PartialSync, old(store.libraries).Keys, old(store.items).Keys, data)| == 0
                    || AnswerAt(task.script, |old(task.calls)|).SUCCESS?
    ensures ok ==> store.items == old(store.items) + ToMap(ItemRows(task.taskName == PartialSync, old(store.libraries).Keys, old(store.items).Keys, data))
    ensures !ok ==> store.items == old(store.items)
    ensures counts == BatchCounts(task.taskName == PartialSync,
                                  |ItemRows(task.taskName == PartialSync, old(store.libraries).Keys, old(store.items).Keys, data)|,
                                  |old(store.items)|)
    ensures var n := |ItemRows(task.taskName == PartialSync, old(store.libraries).Keys, old(store.items).Keys, data)|;
            task.calls == old(task.calls) + if n == 0 then [] else [BulkCall(ItemsTable, Insert, n, AnswerAt(task.script, |old(task.calls)|), true)]
    ensures Step(old(task.throws), task.throws, task.calls, ok)
    ensures ok ==> task.loggedData == old(task.loggedData)
    ensures !ok ==> task.loggedData == old(task.loggedData) + [ErrorLine(task.calls[|task.calls| - 1])]
  {
    var partial := task.taskName == PartialSync;
    var rows := ItemRows(partial, store.libraries.Keys, store.items.Keys, data);
    counts := BatchCounts(partial, |rows|, |store.items|);
    ok := UpsertItems(task, store, rows);
  }

  /** `archiveLibraryItems(fetched)`: archives the active items whose id was not fetched. */
  method ArchiveLibraryItems(task: SyncTask, store: Store, fetched: seq<Id>) returns (ok: bool)
    modifies task`calls, task`loggedData, task`throws, store`items
    ensures var gone := ActiveItems(old(store.items)) - Members(fetched);
            && (ok <==> gone == {} || AnswerAt(task.script, |old(task.calls)|).SUCCESS?)
            && task.calls == old(task.calls) + (if gone == {} then [] else [BulkCall(ItemsTable, UpdateField, |gone|, AnswerAt(task.script, |old(task.calls)|), true)])
            && store.items == (if ok then ArchiveItems(old(store.items), gone) else old(store.items))
    ensures Step(old(task.throws), task.throws, task.calls, ok)
    ensures ok ==> task.loggedData == old(task.loggedData)
    ensures !ok ==> task.loggedData == old(task.loggedData) + [ErrorLine(task.calls[|task.calls| - 1])]
  {
    var gone := ActiveItems(store.items) - Members(fetched);
    ok := true;
    if gone != {} {
      ok := UpdateSingleFieldOnDB(task, ItemsTable, |gone|);
      if ok {
        store.items := ArchiveItems(store.items, gone);
      }
    } else {
      assert ArchiveItems(store.items, gone) == store.items;
    }
  }

  /** Archives the active seasons that were not fetched. */
  method ArchiveGoneSeasons(task: SyncTask, store: Store, fetched: seq<Id>) returns (ok: bool)
    modifies task`calls, task`loggedData, task`throws, store`seasons
    ensures var gone := ActiveSeasons(old(store.seasons)) - Members(fetched);
            && (ok <==> gone == {} || AnswerAt(task.script, |old(task.calls)|).SUCCESS?)
            && task.calls == old(task.calls) + (if gone == {} then [] else [BulkCall(SeasonsTable, UpdateField, |gone|, AnswerAt(task.script, |old(task.calls)|), true)])
            && store.seasons == (if ok then ArchiveSeasons(old(store.seasons), gone) else old(store.seasons))
    ensures Step(old(task.throws), task.throws, task.calls, ok)
    ensures ok ==> task.loggedData == old(task.loggedData)
    ensures !ok ==> task.loggedData == old(task.loggedData) + [ErrorLine(task.calls[|task.calls| - 1])]
  {
    var gone := ActiveSeasons(store.seasons) - Members(fetched);
    ok := true;
    if gone != {} {
      ok := UpdateSingleFieldOnDB(task, SeasonsTable, |gone|);
      if ok {
        store.seasons := ArchiveSeasons(store.seasons, gone);
      }
    } else {
      assert ArchiveSeasons(store.seasons, gone) == store.seasons;
    }
  }

  /** Archives the active episodes whose `EpisodeId` was not fetched. */
  method ArchiveGoneEpisodes(task: SyncTask, store: Store, fetched: seq<Id>) returns (ok: bool)
    modifies task`calls, task`loggedData, task`throws, store`episodes
    ensures var gone := ActiveEpisodes(old(store.episodes)) - Members(fetched);
            && (ok <==> gone == {} || AnswerAt(task.script, |old(task.calls)|).SUCCESS?)
            && task.calls == old(task.calls) + (if gone == {} then [] else [BulkCall(EpisodesTable, UpdateField, |gone|, AnswerAt(task.script, |old(task.calls)|), true)])
            && store.episodes == (if ok then ArchiveEpisodes(old(store.episodes), gone) else old(store.episodes))
    ensures Step(old(task.throws), task.throws, task.calls, ok)
    ensures ok ==> task.loggedData == old(task.loggedData)
    ensures !ok ==> task.loggedData == old(task.loggedData) + [ErrorLine(task.calls[|task.calls| - 1])]
  {
    var gone := ActiveEpisodes(store.episodes) - Members(fetched);
    ok := true;
    if gone != {} {
      ok := UpdateSingleFieldOnDB(task, EpisodesTable, |gone|);
      if ok {
        store.episodes := ArchiveEpisodes(store.episodes, gone);
      }
    } else {
      assert ArchiveEpisodes(store.episodes, gone) == store.episodes;
    }
  }

  /** `archiveSeasonsAndEpisodes(fetchedSeasons, fetchedEpisodes)`: seasons first; a thrown
      season update leaves the episodes untouched. */
  method ArchiveSeasonsAndEpisodes(task: SyncTask, store: Store, fetchedSeasons: seq<Id>, fetchedEpisodes: seq<Id>)
    returns (ok: bool)
    modifies task`calls, task`loggedData, task`throws, store`seasons, store`episodes
    ensures store.seasons == ArchiveSeasons(old(store.seasons), ActiveSeasons(old(store.seasons)) - Members(fetchedSeasons))
            || store.seasons == old(store.seasons)
    ensures ok ==> store.seasons == ArchiveSeasons(old(store.seasons), ActiveSeasons(old(store.seasons)) - Members(fetchedSeasons))
    ensures ok ==> store.episodes == ArchiveEpisodes(old(store.episodes), ActiveEpisodes(old(store.episodes)) - Members(fetchedEpisodes))
    ensures !ok ==> store.episodes == old(store.episodes) && LastThrew(task.calls)
    ensures Step(old(task.throws), task.throws, task.calls, ok)
    ensures ok ==> task.loggedData == old(task.loggedData)
    ensures !ok ==> task.loggedData == old(task.loggedData) + [ErrorLine(task.calls[|task.calls| - 1])]
  {
    ok := ArchiveGoneSeasons(task, store, fetchedSeasons);
    if ok {
      ok := ArchiveGoneEpisodes(task, store, fetchedEpisodes);
    }
  }
}
