/** Library-folder sync (`syncLibraryFolders` of backend/routes/sync.js): upsert the fetched
    libraries, then archive the active libraries that were not fetched and, unless excluded,
    their active items. */
module SyncLibraries {
  import opened Catalog
  import opened SyncRun

  function LibraryRows(data: seq<RemoteLibrary>): seq<(Id, LibraryRow)>
  {
    if data == [] then [] else [(data[0].id, LibraryRowOf(data[0]))] + LibraryRows(data[1..])
  }

  function LibraryIds(data: seq<RemoteLibrary>): set<Id>
  {
    if data == [] then {} else {data[0].id} + LibraryIds(data[1..])
  }

  lemma {:induction false} LibraryRowFacts(data: seq<RemoteLibrary>)
    ensures IdsOf(LibraryRows(data)) == LibraryIds(data)
    ensures forall k :: 0 <= k < |LibraryRows(data)| ==> !LibraryRows(data)[k].1.archived
  {
    if data != [] {
      var head := [(data[0].id, LibraryRowOf(data[0]))];
      LibraryRowFacts(data[1..]);
      IdsOfConcat(head, LibraryRows(data[1..]));
      assert head[..0] == [];
    }
  }

  /** The active items whose library is in `libs`. */
  function ItemsUnder(items: map<Id, ItemRow>, libs: set<Id>): set<Id>
  {
    set id | id in items && !items[id].archived && items[id].parentId in libs
  }

  /** The library table after a successful folder sync. */
  function FoldersAfter(libraries: map<Id, LibraryRow>, data: seq<RemoteLibrary>): map<Id, LibraryRow>
  {
    ArchiveLibraries(libraries + ToMap(LibraryRows(data)), ActiveLibraries(libraries) - LibraryIds(data))
  }

  /** After a successful folder sync a library is active exactly when it was fetched, and every
      library stored before is still stored. */
  lemma FoldersMirrorFetch(libraries: map<Id, LibraryRow>, data: seq<RemoteLibrary>)
    ensures FoldersAfter(libraries, data).Keys == libraries.Keys + LibraryIds(data)
    ensures forall id :: id in FoldersAfter(libraries, data) ==>
              (!FoldersAfter(libraries, data)[id].archived <==> id in LibraryIds(data))
  {
    LibraryRowFacts(data);
    var rows := LibraryRows(data);
    var r := FoldersAfter(libraries, data);
    forall id | id in r ensures !r[id].archived <==> id in LibraryIds(data) {
      if id in LibraryIds(data) {
        ToMapLastWins(rows, id);
      }
    }
  }

  /** The items table after a successful folder sync: only items of vanished libraries that are
      not excluded are archived. */
  lemma ItemsOfVanishedLibraries(items: map<Id, ItemRow>, vanished: set<Id>, excluded: set<Id>)
    ensures var r := ArchiveItems(items, ItemsUnder(items, vanished - excluded));
            r.Keys == items.Keys &&
            forall id :: id in r ==>
              r[id] == items[id].(archived := r[id].archived) &&
              (r[id].archived <==> items[id].archived || items[id].parentId in vanished - excluded)
  {
  }

  /** Upserting the fetched libraries does not change which unfetched libraries are active. */
  lemma UpsertKeepsVanished(libraries: map<Id, LibraryRow>, data: seq<RemoteLibrary>)
    ensures ActiveLibraries(libraries + ToMap(LibraryRows(data))) - LibraryIds(data)
            == ActiveLibraries(libraries) - LibraryIds(data)
  {
    LibraryRowFacts(data);
  }

  lemma ArchiveNoItems(items: map<Id, ItemRow>)
    ensures ArchiveItems(items, {}) == items
  {
  }

  method UpsertLibraries(task: SyncTask, store: Store, data: seq<RemoteLibrary>) returns (ok: bool)
    modifies task`calls, task`loggedData, task`throws, store`libraries
    ensures ok <==> |data| == 0 || AnswerAt(task.script, |old(task.calls)|).SUCCESS?
    ensures task.calls == old(task.calls)
                          + if |data| > 0 then [BulkCall(LibrariesTable, Insert, |data|, AnswerAt(task.script, |old(task.calls)|), true)] else []
    ensures Step(old(task.throws), task.throws, task.calls, ok)
    ensures store.libraries == if ok then old(store.libraries) + ToMap(LibraryRows(data)) else old(store.libraries)
    ensures ok ==> task.loggedData == old(task.loggedData)
    ensures !ok ==> task.loggedData == old(task.loggedData) + [ErrorLine(task.calls[|task.calls| - 1])]
  {
    ok := true;
    if |data| > 0 {
      ok := InsertData(task, LibrariesTable, |data|);
      if ok {
        store.libraries := store.libraries + ToMap(LibraryRows(data));
      }
    } else {
      assert LibraryRows(data) == [];
      assert store.libraries + ToMap(LibraryRows(data)) == store.libraries;
    }
  }

  /** Archives the vanished libraries, first their active items unless the library is excluded. */
  method ArchiveVanished(task: SyncTask, store: Store, vanished: set<Id>, excluded: set<Id>) returns (ok: bool)
    modifies task`calls, task`loggedData, task`throws, store`libraries, store`items
    ensures Step(old(task.throws), task.throws, task.calls, ok)
    ensures var under := ItemsUnder(old(store.items), vanished - excluded);
            ok <==> vanished == {} || ((under == {} || AnswerAt(task.script, |old(task.calls)|).SUCCESS?)
                                       && AnswerAt(task.script, |old(task.calls)| + if under == {} then 0 else 1).SUCCESS?)
    ensures var under := ItemsUnder(old(store.items), vanished - excluded);
            task.calls == old(task.calls)
              + (if vanished != {} && under != {} then [BulkCall(ItemsTable, UpdateField, |under|, AnswerAt(task.script, |old(task.calls)|), true)] else [])
              + (if vanished != {} && (under == {} || AnswerAt(task.script, |old(task.calls)|).SUCCESS?)
                 then [BulkCall(LibrariesTable, UpdateField, |vanished|, AnswerAt(task.script, |old(task.calls)| + if under == {} then 0 else 1), true)]
                 else [])
    ensures var under := ItemsUnder(old(store.items), vanished - excluded);
            store.items == if vanished != {} && under != {} && AnswerAt(task.script, |old(task.calls)|).SUCCESS?
                           then ArchiveItems(old(store.items), under) else old(store.items)
    ensures store.libraries == if ok then ArchiveLibraries(old(store.libraries), vanished) else old(store.libraries)
    ensures ok ==> task.loggedData == old(task.loggedData)
    ensures !ok ==> task.loggedData == old(task.loggedData) + [ErrorLine(task.calls[|task.calls| - 1])]
  {
    ok := true;
    if vanished == {} {
      assert ArchiveLibraries(store.libraries, vanished) == store.libraries;
      return;
    }
    var under := ItemsUnder(store.items, vanished - excluded);
    if under != {} {
      ok := UpdateSingleFieldOnDB(task, ItemsTable, |under|);
      if !ok {
        return;
      }
      store.items := ArchiveItems(store.items, under);
    }
    ok := UpdateSingleFieldOnDB(task, LibrariesTable, |vanished|);
    if ok {
      store.libraries := ArchiveLibraries(store.libraries, vanished);
    }
  }

  /** `syncLibraryFolders(data, excluded)`: `data` are the fetched libraries that are not excluded,
      `excluded` the ids of the fetched libraries that are. */
  method SyncLibraryFolders(task: SyncTask, store: Store, data: seq<RemoteLibrary>, excluded: set<Id>) returns (ok: bool)
    modifies task`calls, task`loggedData, task`throws, store`libraries, store`items
    ensures Step(old(task.throws), task.throws, task.calls, ok)
    ensures ok ==> store.libraries == FoldersAfter(old(store.libraries), data)
    ensures ok ==> store.items == ArchiveItems(old(store.items),
                     ItemsUnder(old(store.items), ActiveLibraries(old(store.libraries)) - LibraryIds(data) - excluded))
    ensures ok ==> task.loggedData == old(task.loggedData)
    ensures !ok ==> task.loggedData == old(task.loggedData) + [ErrorLine(task.calls[|task.calls| - 1])]
    ensures !ok ==> store.libraries in {old(store.libraries), old(store.libraries) + ToMap(LibraryRows(data))}
    ensures !ok ==> store.items in {old(store.items), ArchiveItems(old(store.items),
                     ItemsUnder(old(store.items), ActiveLibraries(old(store.libraries)) - LibraryIds(data) - excluded))}
  {
    var vanished := ActiveLibraries(store.libraries) - LibraryIds(data);
    ghost var items0 := store.items;
    LibraryRowFacts(data);
    ok := UpsertLibraries(task, store, data);
    if !ok {
      return;
    }
    UpsertKeepsVanished(old(store.libraries), data);
    ok := ArchiveVanished(task, store, vanished, excluded);
    if ok && (vanished == {} || ItemsUnder(items0, vanished - excluded) == {}) {
      ArchiveNoItems(items0);
    }
  }
}
