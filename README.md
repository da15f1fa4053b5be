# Jellystat core, modelled in Dafny

Jellystat is a statistics server for a Jellyfin media server. This project models the parts of its
backend that decide what the database holds and when work runs:

- **Catalog synchronisation** (`backend/routes/sync.js`):
  - the users, library folders, items, seasons, episodes and item-info of the media server are
    mirrored into the database;
  - what vanished is archived, and orphans are cleaned up;
  - playback history is moved onto re-added items;
  - the playback-reporting plugin import builds its query.
- **API routes** (`backend/routes/api.js`): history grouping, the settings toggles, API keys, task
  intervals, credentials, the server-URL normalisation, and the purge of archived library items.
- **Deletion rules** (`backend/models/jf_deletion_rules.js`): rule defaults, the days-until-deletion
  arithmetic, the preview buckets, dry-run and live processing, and which external services a
  deletion calls.
- **Schedulers** (`backend/tasks/*.js`): the full and recently-added sync tasks, the backup task and
  the deletion-rules task, over a task log of `{Name, Result, TimeRun}` rows.
- **Task states** (`backend/logging/taskstate.js`).

The database is a `Store` object (module `Catalog`):

- maps from id to row for users, libraries, items, seasons, episodes (keyed by `EpisodeId`) and
  item-info;
- a sequence of playback-activity rows;
- the imported plugin rows.

A sync run is a `SyncTask` object (module `SyncRun`):

- its task name and its log lines;
- the results written to its log row;
- the progress messages;
- the phases it entered;
- every bulk call it made.

The bulk gateway (`db.insertBulk`, `deleteBulk`, `updateSingleFieldBulk`) is not part of this model.
Instead, a run is given a script of SUCCESS/FAILURE outcomes, and its n-th bulk call receives the
n-th answer. A table changes only when its call is answered SUCCESS.

The wrappers of class `sync` turn a FAILURE into a thrown error. The model represents that error as an
`ok: bool` result that every caller propagates, together with a ghost counter of throws. Loops are
`while`/`for` loops. Each is proved against a fold function over the input prefix (`ShowFold`,
`InfoFold`, `Run`, `RulesRun`, `BucketsAfter`), and the properties of the source are proved as lemmas
about those functions.

Other inputs also become parameters:

- what the media server answers: the users, the libraries, and 200-record pages per library;
- the storage procedures whose SQL is not part of this model: `jd_remove_orphaned_data` and
  `ji_insert_playback_plugin_data_to_activity_table` become functions `Tables -> Tables`;
- the SQL finders of the deletion rules;
- date formatting;
- fresh UUIDs;
- the current minute.

A library whose first page is empty never enters the page loop. Its ids are then missing from the
fetched lists, and the FULL_SYNC archive step archives its items, seasons and episodes. The only code
that looks at an empty first page is the branch at backend/routes/sync.js:626-629, which would log
"No Items found" and leave the loop. That branch is unreachable (see the quirks below), and its `break`
would not skip the archiving either. `FullSync.SyncLibrary` and `FullSync.ArchivePhase` model this:
`ArchivePhase` archives exactly the active rows whose id is not among the fetched ones.

The three defects listed under Findings below are handled the same way. The routes `ApiPurge.PurgeLibraryItems`,
`ApiSettings.UpdateCredentials` and `ApiUrl.ValidateSettingsUrl` do what the code does. Each corrected
definition (`PurgedActivity`, `Credentials`, `Normalize`) stands beside its route, with the intended
property proved about it and a lemma stating where the two differ.

Quirks of the code that the model keeps:

- The "no items found" message for an empty first page can never be logged, because the `while`
  condition already requires a non-empty page.
- `syncSeasons`/`syncEpisodes` walk the `SeriesId` of every record, duplicates included.
- In the plugin import, the "plugin not detected" branch is dead: only "No new data to insert." is
  logged, and the activity fold runs in both branches.
- The deletion processing calls Radarr only for media type exactly "movie", although every type other
  than "show" and "episode" uses the movie finder.
- A rule created without `enabled` is stored with a NULL `enabled`, so it counts as disabled.
- The sync schedulers write back their current delay, not the default, when the `Interval` setting is
  cleared.
- A backup that throws leaves its Running row, so every later tick skips until the next process start.
  The timer is not re-armed either.
- In `DeletionRulesTask`, the `catch` of `start` is unreachable while the error-log update in
  `processRules` succeeds, because `processRules` does not rethrow. An exception from that
  `updateLog` would reach it, set ERROR and leave the timer unarmed; that log update is not modelled.
- Restarting `DeletionRulesTask` after an error arms a second timer without clearing the first.
- `RecentlyAddedItemsSyncTask` also tests `!config`; for the query result it reads this is the same as
  the length test of `FullSyncTask`, so both are one `SyncScheduler` class.

## Model

| member | source | states |
|---|---|---|
| TaskStates.Parse | backend/logging/taskstate.js:1-8 | a stored Result string decodes to a state exactly when it is that state's name, and to no state otherwise |
| TaskStates.ParseName | backend/logging/taskstate.js:2-7 | decoding the name of any of the six states gives that state back |
| TaskStates.NameInjective | backend/logging/taskstate.js:2-7 | two states with the same name are the same state (so FAILED 'Failed' and ERROR 'Error' differ) |
| TaskLog.FailStaleRuns | backend/tasks/FullSyncTask.js:9-15 | the startup cleanup turns exactly the task's Running rows into Failed and leaves every other row, and every name and time, unchanged |
| TaskLog.LogTable.FailStale | backend/tasks/BackupTask.js:13-20 | a cleanup whose update succeeds applies FailStaleRuns to the log; a failing one leaves the log as it was |
| TaskLog.Latest | backend/tasks/FullSyncTask.js:63-71 | the `ORDER BY "TimeRun" DESC LIMIT 1` query: None iff no row of that name and result set exists, otherwise such a row with the greatest TimeRun |
| TaskLog.CleanupClearsRunning | backend/tasks/RecentlyAddedItemsSyncTask.js:9-15 | after the cleanup no row of the task is Running, and whether the other task has a Running row is unchanged |
| TaskLog.LatestIgnores | backend/tasks/BackupTask.js:67-71 | a row outside the queried name and result set, appended or prepended, never changes the latest row |
| Catalog.ToMap | backend/routes/sync.js:159-168 | the rows an upsert writes are keyed by exactly the ids of the submitted batch |
| Catalog.ToMapLastWins | backend/routes/sync.js:159-168 | each written row is a row of the batch, and it is the last row the batch holds for that id |
| Catalog.RowsOfIds | backend/routes/sync.js:160-161 | the keys of a mapped batch are exactly the defined ids of its records; records without an id are dropped |
| Catalog.Members | backend/routes/sync.js:180 | the `.some(row => row === id)` test: an id is a member iff it occurs in the fetched list |
| Catalog.ArchiveItemsExact | backend/routes/sync.js:177-186 | archiving the active items missing from the fetch keeps every key, leaves active exactly the previously active fetched items, and changes no other column |
| Catalog.ArchiveSeasonsExact | backend/routes/sync.js:268-283 | the same exact set difference for seasons |
| Catalog.ArchiveEpisodesExact | backend/routes/sync.js:268-289 | the same exact set difference for episodes, keyed by `EpisodeId` |
| SyncRun.SyncTask.constructor | backend/routes/sync.js:549 | a new run carries the given task name and outcome script, with an empty log, no results, no calls, no phases and no throw |
| SyncRun.BatchCounts | backend/routes/sync.js:170-174 | the counters of one batch are never negative; PARTIAL_SYNC counts every submitted row as inserted and none as updated; FULL_SYNC counts the stored ids as updated and max(submitted - stored, 0) as inserted |
| SyncRun.Submit | backend/routes/sync.js:47 | the gateway records the call and answers with the run's next scripted outcome |
| SyncRun.InsertData | backend/routes/sync.js:46-57 | succeeds iff its call is answered SUCCESS; on FAILURE it logs the error line and throws |
| SyncRun.RemoveData | backend/routes/sync.js:59-67 | the same for the bulk delete |
| SyncRun.UpdateSingleFieldOnDB | backend/routes/sync.js:69-77 | the same for the single-field bulk update |
| SyncUsers.RepairUserNames | backend/routes/sync.js:104-107 | every activity row of a stored user carries that user's name, no other column changes, and rows of unknown users are untouched |
| SyncUsers.RepairIdempotent | backend/routes/sync.js:104-107 | repairing the names twice is repairing them once |
| SyncUsers.UserSyncMirrors | backend/routes/sync.js:93-102 | upserting the fetched users and then deleting the stored users missing from the fetch leaves exactly the fetched users |
| SyncUsers.UpsertUsers | backend/routes/sync.js:93-97 | the insert is made only for a non-empty fetch, and on SUCCESS the users table gains the fetched rows |
| SyncUsers.RemoveGoneUsers | backend/routes/sync.js:99-102 | the stored users missing from the fetch are physically deleted, and only when some exist |
| SyncUsers.SyncUserData | backend/routes/sync.js:82-109 | the calls made are the insert and then the delete; on success the users table equals the fetch and the activity names are repaired; on a thrown FAILURE the activity is untouched and the error is logged |
| SyncLibraries.FoldersMirrorFetch | backend/routes/sync.js:119-147 | after the folder sync every library stored before is still stored, and a library is active iff it was fetched |
| SyncLibraries.ItemsOfVanishedLibraries | backend/routes/sync.js:127-146 | after the folder sync an item is archived iff it already was or its library vanished and is not excluded; no other column changes |
| SyncLibraries.UpsertKeepsVanished | backend/routes/sync.js:116-127 | the upsert does not change which unfetched libraries count as vanished |
| SyncLibraries.UpsertLibraries | backend/routes/sync.js:119-123 | the libraries table gains the fetched rows on SUCCESS and is unchanged otherwise |
| SyncLibraries.ArchiveVanished | backend/routes/sync.js:127-147 | the items of vanished, non-excluded libraries are archived first, then every vanished library, even an excluded one |
| SyncLibraries.SyncLibraryFolders | backend/routes/sync.js:111-149 | on success the libraries and items are those of FoldersMirrorFetch and ItemsOfVanishedLibraries; a thrown FAILURE is logged, and leaves the libraries as before or upserted and the items as before or with the vanished libraries' items archived |
| SyncItems.ItemBatch | backend/routes/sync.js:151-164 | a record is submitted iff its `ParentId` is a stored library and, under PARTIAL_SYNC, its id is not stored yet |
| SyncItems.ItemAdmission | backend/routes/sync.js:153-164 | an id reaches the insert iff a fetched record with that id is under a stored library and, under PARTIAL_SYNC, is not stored |
| SyncItems.PartialKeepsStoredItems | backend/routes/sync.js:162-168 | under PARTIAL_SYNC the insert never overwrites a stored item |
| SyncItems.UpsertItems | backend/routes/sync.js:166-168 | the throwing insert is made only for a non-empty batch, and on SUCCESS the items table gains the batch |
| SyncItems.SyncLibraryItems | backend/routes/sync.js:151-175 | the items table and the returned counters are those of the admitted batch, with the counters compared against every stored item |
| SyncItems.ArchiveLibraryItems | backend/routes/sync.js:177-186 | exactly the active items missing from the fetched ids are archived, through one throwing update made only when there are any |
| SyncItems.ArchiveGoneSeasons | backend/routes/sync.js:268-283 | exactly the active seasons missing from the fetch are archived, through one throwing update made only when there are any |
| SyncItems.ArchiveGoneEpisodes | backend/routes/sync.js:268-289 | exactly the active episodes missing from the fetch are archived, through one throwing update made only when there are any |
| SyncItems.ArchiveSeasonsAndEpisodes | backend/routes/sync.js:268-289 | seasons first, then episodes; a thrown season update leaves the episodes untouched |
| SyncShows.SeriesIds | backend/routes/sync.js:189 | the series walked are the `SeriesId` of every record, in order, not deduplicated |
| SyncShows.ShowBatch | backend/routes/sync.js:197-202 | a record is submitted for a series iff it belongs to it and, under PARTIAL_SYNC, its id is not stored for that series |
| SyncShows.StepShape | backend/routes/sync.js:194-222 | one iteration appends at most one unchecked insert into its own table; a FAILURE appends the error line and a Failed result and counts nothing |
| SyncShows.ShowFoldCalls | backend/routes/sync.js:194-223 | a season or episode pass only appends unchecked inserts into its own table, so it never throws through the wrapper |
| SyncShows.ShowFoldMarks | backend/routes/sync.js:214-220 | a pass only appends to the log and the results, and every result it appends is Failed |
| SyncShows.ShowFoldCounts | backend/routes/sync.js:206-213 | the pass counters are never negative; under PARTIAL_SYNC they are the rows of the accepted inserts and zero updates |
| SyncShows.ShowFoldKeys | backend/routes/sync.js:194-223 | a pass only adds rows, and only for ids of its own records |
| SyncShows.ShowFoldStores | backend/routes/sync.js:194-223 | when every call is accepted, each record of a series reached is stored, whether it was submitted or already there |
| SyncShows.PassStoresAll | backend/routes/sync.js:188-225 | a whole pass whose calls are all accepted leaves the table holding its old ids plus every defined record id, in both sync modes |
| SyncShows.SeasonIteration | backend/routes/sync.js:194-222 | one season iteration performs the step the fold describes |
| SyncShows.SyncSeasons | backend/routes/sync.js:188-225 | the table, the calls, the counters, the log and the results after `syncSeasons` are those of the fold over every `SeriesId` |
| SyncShows.EpisodeIteration | backend/routes/sync.js:233-263 | one episode iteration performs the step the fold describes |
| SyncShows.SyncEpisodes | backend/routes/sync.js:227-266 | the same for `syncEpisodes`, keyed by `EpisodeId` |
| SyncItemInfo.ItemInfoSources | backend/routes/sync.js:292 | the items whose media sources are collected are exactly those that are not Series or Folder and have an id |
| SyncItemInfo.EpisodeInfoSources | backend/routes/sync.js:293 | the episodes whose media sources are collected are exactly the Episode records with an id |
| SyncItemInfo.InfoRows | backend/routes/sync.js:309 | one info row per media source, in order |
| SyncItemInfo.SelectedRecordsFacts | backend/routes/sync.js:307 | FULL_SYNC selects every record; PARTIAL_SYNC selects exactly those whose id has no info row; any other task name selects none |
| SyncItemInfo.InfoFoldRows | backend/routes/sync.js:302-317 | the rows a loop collects are exactly the info rows of the selected records, in order |
| SyncItemInfo.InfoFoldCounts | backend/routes/sync.js:312-315 | inserted plus updated is the number of collected rows, PARTIAL_SYNC counts no updates, and neither counter is negative |
| SyncItemInfo.CollectItemInfo | backend/routes/sync.js:302-317 | the item loop computes the item pass |
| SyncItemInfo.CollectEpisodeInfo | backend/routes/sync.js:320-338 | the episode loop appends the episode pass to what the item loop collected |
| SyncItemInfo.SyncItemInfo | backend/routes/sync.js:291-356 | a single unchecked insert of every collected row, made only when there are some; a FAILURE is logged and marks the run Failed without throwing |
| Orphans.OrphanCascade | backend/routes/sync.js:367-379 | the seasons and episodes of an archived series are archived, episodes of a season archived beforehand are archived, and no active episode lacks a season |
| Orphans.CascadeKeepsSeasons | backend/routes/sync.js:373-375 | the cascade removes no season, never un-archives, changes no other column, and leaves the other tables alone |
| Orphans.CascadeRemovesOnlyUnseasoned | backend/routes/sync.js:377-379 | exactly the active episodes without a season that lie outside the archived series are deleted |
| Orphans.CascadeUpdate | backend/routes/sync.js:373-375 | one cascade update goes through the throwing wrapper and changes the table only on SUCCESS |
| Orphans.Cascade | backend/routes/sync.js:367-379 | the three updates run in order and stop at the first thrown one; the closing delete runs only after all three |
| Orphans.RemoveOrphanedData | backend/routes/sync.js:360-382 | the storage procedure, then the cascade: on success the tables are those OrphanCascade describes; otherwise they are a prefix of its stages |
| Migration.MovieMapping | backend/routes/sync.js:389-406 | every movie pair maps an id with no active item to an active item |
| Migration.MovieMappingExact | backend/routes/sync.js:389-406 | a pair is returned iff an episode-less activity row has the old id, its name is the new item's name, the new item is active and differs, and no active item has the old id |
| Migration.RepointMovie | backend/routes/sync.js:430-433 | the update repoints exactly the rows with the old `NowPlayingItemId` and keeps their other columns |
| Migration.RepointMovies | backend/routes/sync.js:430-433 | after the movie loop every row is unchanged or moved along a pair, and no row keeps an old id of a pair |
| Migration.EpisodeMapping | backend/routes/sync.js:408-424 | every episode pair maps an id with no active episode to an active episode |
| Migration.EpisodeMappingExact | backend/routes/sync.js:408-424 | a pair is returned iff an activity row with the old `EpisodeId` matches an active episode on name and series name, and no active episode has the old id |
| Migration.RepointEpisode | backend/routes/sync.js:435-438 | the update rewrites `EpisodeId`, `SeasonId` and `NowPlayingItemId` together, on exactly the rows with the old `EpisodeId` |
| Migration.RepointEpisodes | backend/routes/sync.js:435-438 | after the episode loop every row is unchanged or moved along a pair, and no row keeps an old `EpisodeId` of a pair |
| Migration.MigrateArchivedActivity | backend/routes/sync.js:384-441 | both mappings are read before either loop runs; the result is a migration of the activity |
| Migration.MigrationEffect | backend/routes/sync.js:426-438 | a migration keeps the number of rows, changes only the rows the mappings name, and leaves no row pointing at an old id |
| Migration.MigrationSettles | backend/routes/sync.js:389-424 | after a migration both mapping queries return nothing |
| Migration.EmptyMigrationIsIdle | backend/routes/sync.js:430-438 | with empty mappings a migration changes nothing |
| Migration.SecondMigrationIsIdle | backend/routes/sync.js:384-441 | a second migration over unchanged item and episode tables changes nothing |
| PluginImport.OldestActivity | backend/routes/sync.js:463-465 | `MIN("ActivityDateInserted")` is NULL iff there is no activity, and otherwise is the smallest date, attained by some row |
| PluginImport.NewestActivity | backend/routes/sync.js:467-469 | `MAX("ActivityDateInserted")` is NULL iff there is no activity, and otherwise is the largest date, attained by some row |
| PluginImport.MaxRowId | backend/routes/sync.js:471-473 | `MAX(rowid)` of the imported plugin rows is NULL iff there are none, and otherwise is the largest row id, attained by some row |
| PluginImport.BuildPluginQuery | backend/routes/sync.js:476-504 | the query string built by reassignments is the query the filter describes |
| PluginImport.PluginQueryShape | backend/routes/sync.js:476-504 | the query selects from PlaybackActivity and orders by rowid; it has a WHERE clause iff a date or a truthy row-id bound is known |
| PluginImport.RowBoundOnlyWithoutBothDates | backend/routes/sync.js:478-502 | the row-id bound is used iff it is truthy and at most one date is known; with both dates the query ignores it |
| PluginImport.StoredBoundsFilter | backend/routes/sync.js:463-502 | a store yields both dates or neither, so the one-sided branches are never taken |
| PluginImport.InsertFetched | backend/routes/sync.js:513-527 | the fetched rows are inserted by one unchecked call when there are any; a FAILURE is logged and marks the run Failed |
| PluginImport.ImportFromPlugin | backend/routes/sync.js:462-529 | the query is built from the stored bounds, its rows are fetched and inserted, and the branch's lines are logged |
| PluginImport.SyncPlaybackPluginData | backend/routes/sync.js:443-535 | without the plugin only "No new data to insert." is logged; the activity fold runs either way; a failed insert marks the run Failed and the import continues |
| FullSync.PagesRead | backend/routes/sync.js:625-683 | the page loop reads pages until the first empty page, and every page it reads is non-empty |
| FullSync.EmptyPageIsLast | backend/routes/sync.js:625 | the first empty page met is the last page read |
| FullSync.WithParent | backend/routes/sync.js:631-634 | every record of a page gets the library as `ParentId`, and nothing else changes |
| FullSync.OfTypes | backend/routes/sync.js:636-638 | the type split keeps exactly the records of the given types |
| FullSync.IdList | backend/routes/sync.js:641 | a fetched-id list holds exactly the defined ids of its records |
| FullSync.Included | backend/routes/sync.js:573 | the libraries synced are exactly those whose id is not excluded |
| FullSync.ExistingExcluded | backend/routes/sync.js:574 | the excluded libraries passed on are exactly the excluded ids the server still reports |
| FullSync.SyncItemsOfPage | backend/routes/sync.js:640-645 | the item sync runs only for a page with items; it succeeds iff there is nothing to insert or the insert is accepted, and the items table then gains the admitted rows, otherwise it is unchanged and the error is logged |
| FullSync.SyncPage | backend/routes/sync.js:631-665 | one page: the items table gains the admitted rows iff the item insert is accepted or there is nothing to insert; a thrown insert leaves seasons, episodes and item-info untouched; otherwise seasons, episodes, item-info, calls, log and results are those of `RestOfPage` after the item call; the fetched ids are those of the page |
| FullSync.PassIfAnyFacts | backend/routes/sync.js:647-659 | a season or episode pass of a page only appends unchecked inserts into its own table and Failed results, keeps its counters non-negative, and changes nothing when the page has no such records |
| FullSync.SyncShowsOfPage | backend/routes/sync.js:647-659 | the season pass, then the episode pass starting from the season pass's run; each runs only when present, so an absent kind leaves its table unchanged; the calls are unchecked inserts into the seasons or episodes table; counters non-negative, only Failed results added |
| FullSync.SyncInfoOfPage | backend/routes/sync.js:661-665 | one unchecked item-info insert of the item rows then the episode rows, made only when there are rows; the table gains them iff it is accepted, a failure is logged and marked Failed; the counters are those of the two passes and non-negative |
| FullSync.SyncRestOfPage | backend/routes/sync.js:647-665 | the season, episode and item-info syncs of a page end in exactly the state `RestOfPage` gives from the state before them |
| FullSync.ReadPage | backend/routes/sync.js:631-682 | one non-empty page is synced and the next is requested; on success the fetched ids are those of the pages read so far plus this one |
| FullSync.EnterLibrary | backend/routes/sync.js:604-686 | entering a library records its media phase, then runs its page loop; on success its fetched ids are those of all its pages |
| FullSync.SyncLibrary | backend/routes/sync.js:604-686 | the page loop of one library: on success its fetched ids are those of all pages up to the first empty one; a thrown FAILURE ends it with the error logged |
| FullSync.SyncMedia | backend/routes/sync.js:604-686 | the library loop enters the libraries in order, and on success collects the fetched ids of all of them |
| FullSync.CleanupSettles | backend/routes/sync.js:360-382 | whatever the storage procedure left, a cleanup whose updates all succeed settles the archive cascade |
| FullSync.ArchivePhase | backend/routes/sync.js:708-711 | the FULL_SYNC archiving: on success exactly the active items, seasons and episodes whose id was not fetched are archived; if the items are not archived, the run failed and none of the three tables changed; phases and log lines as reached |
| FullSync.CleanupPhase | backend/routes/sync.js:718-720 | after the cleanup, migration and statistics phases the cascade is settled and both migration mappings are empty |
| FullSync.MediaPhase | backend/routes/sync.js:579-706 | the media sync ends with the three counter lines, a negative inserted count shown as 0 |
| FullSync.SyncCatalog | backend/routes/sync.js:579-720 | the phases run in order; a thrown FAILURE stops at the phase reached with the error logged |
| FullSync.SyncDirectory | backend/routes/sync.js:560-577 | the users are synced; a server without libraries stops the run after the user phase; otherwise the library folders are synced |
| FullSync.SyncBody | backend/routes/sync.js:560-723 | every phase in order when nothing throws; seasons, episodes and item-info failures only add Failed results |
| FullSync.CloseRun | backend/routes/sync.js:722-728 | a thrown error gives the catch line, Failed and the Error message; an empty server gives its error line and Failed (the early return at lines 564-568); otherwise Success |
| FullSync.HaltedAfterError | backend/routes/sync.js:724-726 | the catch line follows the error line the throwing wrapper logged |
| FullSync.RunWithSettings | backend/routes/sync.js:550-728 | the log row is Running, then only Failed results, then Success iff the run finished; a finished run entered every phase and settled the catalog |
| FullSync.RunFullSync | backend/routes/sync.js:545-729 | a configuration error logs only its message, makes no call and fails the run before any phase; otherwise RunWithSettings |
| ApiHistory.FirstPassStep | backend/routes/api.js:20-37 | one row of the first pass extends its key's group, or starts it, and moves the lead only to a strictly later row |
| ApiHistory.FirstOccurrence | backend/routes/api.js:19-37 | the dictionary's keys in insertion order list every key of the rows exactly once |
| ApiHistory.FirstOccurrenceOrdered | backend/routes/api.js:19-37 | a key listed before another first occurs before the other's first occurrence in the rows |
| ApiHistory.GroupRows | backend/routes/api.js:19-37 | the first pass leaves, per key, the lead row and exactly that key's rows in input order, and lists the keys in the order they were inserted |
| ApiHistory.SumGroups | backend/routes/api.js:40-45 | every group gets its summed duration and its play count, and no key is added or lost |
| ApiHistory.GroupActivity | backend/routes/api.js:18-47 | one group per concatenated key, holding exactly that key's rows in input order, their count, their summed duration and the lead row's fields; the groups are listed once each, in the order their keys first occur, as `Object.values` returns them to the routes (whose rows come newest first) |
| ApiHistory.KeysUpToRows | backend/routes/api.js:21-22 | a key has a group iff some row carries it |
| ApiHistory.MatchingKeys | backend/routes/api.js:29-35 | a group holds only rows of its key |
| ApiHistory.MatchingCovers | backend/routes/api.js:29-35 | every row of a key is in that key's group |
| ApiHistory.MatchingSubMultiset | backend/routes/api.js:20-37 | a group holds no row more often than the input does |
| ApiHistory.MatchingNonEmpty | backend/routes/api.js:30-36 | a group is non-empty iff its key occurs |
| ApiHistory.FirstLatestSkip | backend/routes/api.js:22-29 | a row of another key does not move a group's lead |
| ApiHistory.FirstLatestFresh | backend/routes/api.js:30-36 | the first row of a key is its lead |
| ApiHistory.FirstLatestExtend | backend/routes/api.js:23-28 | a strictly later row becomes the lead, and an equal or earlier one does not |
| ApiHistory.LeadIsFirstLatest | backend/routes/api.js:22-28 | the lead is the row with the greatest `ActivityDateInserted`, the earliest such row on ties |
| ApiHistory.KeysCanCollide | backend/routes/api.js:21 | the key is a bare concatenation, so rows of two different items can share a group |
| ApiPurge.Without | backend/routes/api.js:63-69 | a bulk delete removes exactly the given ids and keeps every other row |
| ApiPurge.KeptActivity | backend/routes/api.js:73-80 | a playback row is kept iff it is not one the delete targets |
| ApiPurge.CollectChildren | backend/routes/api.js:54-61 | the loop collects exactly the archived seasons and episodes of the purged items |
| ApiPurge.DeleteIfAny | backend/routes/api.js:63-69 | the bulk delete is issued only for a non-empty list; its unchecked outcome decides whether exactly the listed rows go, and an empty list changes nothing |
| ApiPurge.PurgeLibraryItems | backend/routes/api.js:49-81 | the tables after the purge are those of `Purged`, whose activity delete is the one written in the route (plays of the library id and of the purged seasons and episodes) |
| ApiPurge.PurgeKeepsActiveRows | backend/routes/api.js:49-80 | only archived items of the library and archived seasons and episodes of those items are removed; active rows survive; history is touched only on request, and then exactly the rows whose `NowPlayingItemId` is the library id or whose episode or season was purged go |
| ApiPurge.PurgedActivityExact | backend/routes/api.js:73-80 | with the corrected delete no remaining playback row refers to a purged item, season or episode, and every other row stays |
| ApiPurge.PurgeAsWrittenKeepsMoviePlays | backend/routes/api.js:73-80 | the delete as written keeps the plays of a purged movie |
| ApiSettings.RemoveAll | backend/routes/api.js:313 | the filter removes every occurrence of the id and keeps the other entries (the user toggle at line 362 is the same code) |
| ApiSettings.RemoveAbsent | backend/routes/api.js:313 | removing an id that is absent changes nothing |
| ApiSettings.RemoveAppended | backend/routes/api.js:313-315 | removing an id just appended restores the list |
| ApiSettings.ToggleFlips | backend/routes/api.js:311-317 | a toggle flips the id's membership and no other id's |
| ApiSettings.ToggleTwice | backend/routes/api.js:311-317 | toggling twice restores every membership, and the list itself when the id was absent (likewise for the user toggle at lines 360-366) |
| ApiSettings.SetExcludedLibraries | backend/routes/api.js:297-328 | a missing id gives 400, a missing row 404, both changing nothing; otherwise the excluded libraries are toggled |
| ApiSettings.SetUntrackedUsers | backend/routes/api.js:348-377 | a missing or array `userId` gives 400, a missing row 404, both changing nothing; otherwise the untracked users are toggled and returned |
| ApiSettings.RemoveKey | backend/routes/api.js:398 | key removal drops every entry with that key and keeps the others in order |
| ApiSettings.RemoveKeyExact | backend/routes/api.js:396-398 | removal changes the list iff the key is present, and then shortens it |
| ApiSettings.DeleteKey | backend/routes/api.js:385-407 | a falsy key gives 400, an unknown key 404, both with the list unchanged; a known key removes its entries |
| ApiSettings.AddKey | backend/routes/api.js:409-437 | a missing or empty name gives 400; otherwise exactly one `{name, key}` entry is appended and returned |
| ApiSettings.SetTaskSettings | backend/routes/api.js:458-497 | a missing task name or interval gives 400, a missing row 404; otherwise only `Tasks[taskname].Interval` changes |
| ApiSettings.CredentialsAsWritten | backend/routes/api.js:180-240 | the checks in order (config error 503, nothing given 400, empty username 400, wrong or missing current password 400, same new password 400); the password step is skipped only when both passwords are missing; the password is written iff the current password matches and the new one differs, with a missing new password written as the text "undefined" |
| ApiSettings.Credentials | backend/routes/api.js:213-231 | the intended version: the same checks and answers, a wrong or missing current password still answered "Old Password is Invalid", but a password is written only when a new password is given |
| ApiSettings.CredentialsCorrectionScope | backend/routes/api.js:213-226 | the two versions differ only for the right current password with no new one: as written "undefined" is stored with 200, as intended nothing is written and 400 is answered |
| ApiSettings.CredentialsAsWrittenStoresUndefined | backend/routes/api.js:213-226 | with only the current password given, the code as written stores the text "undefined" as the new password; the intended version writes nothing |
| ApiSettings.UpdateCredentials | backend/routes/api.js:180-240 | the route applies the writes and the reply of `CredentialsAsWritten` to the configuration row |
| ApiUrl.StripSuffix | backend/routes/api.js:878-882 | an anchored replace removes the suffix once when it ends the string, and otherwise changes nothing |
| ApiUrl.NormalizeAsWritten | backend/routes/api.js:877-882 | as written: the URL always ends in "/system/configuration", after one trailing "/" is dropped from the stripped address when it has a scheme, or from "http://" plus the address as typed when it has none |
| ApiUrl.Normalize | backend/routes/api.js:877-882 | as intended: the URL always ends in "/system/configuration", after one trailing "/" is dropped from the schemed address |
| ApiUrl.NormalizeScheme | backend/routes/api.js:879-881 | in the intended normalisation a scheme-less address gets "http://", and an address with a scheme keeps its own |
| ApiUrl.NormalizeAsWrittenDiffers | backend/routes/api.js:877-882 | the code as written differs from the corrected normalisation iff the address has no scheme and ends with the home-page tail |
| ApiUrl.NormalizeHomePageKept | backend/routes/api.js:877-882 | for a scheme-less home-page address the code as written keeps the home-page tail in the URL |
| ApiUrl.ValidateSettingsUrl | backend/routes/api.js:868-884 | a missing url or API key gives 400; otherwise the URL is the one the code as written builds, which equals the intended one except for a scheme-less address ending in the home-page tail |
| DeletionRules.WarningDaysOf | backend/models/jf_deletion_rules.js:60 | a falsy `warning_days` (absent or 0) becomes 3, and any other value is kept |
| DeletionRules.CreateRule | backend/models/jf_deletion_rules.js:43-68 | the row stores every given field, with `exclusions` defaulting to {} and `warning_days` to 3 |
| DeletionRules.UpdateRule | backend/models/jf_deletion_rules.js:70-101 | an unknown id updates nothing; otherwise the row keeps its id and takes the fields and defaults a created rule would get |
| DeletionRules.DaysUntilDeletion | backend/models/jf_deletion_rules.js:343-346 | days until deletion plus days since watched is the rule's threshold, so it is at most 0 iff the threshold is reached |
| DeletionRules.FinderFor | backend/models/jf_deletion_rules.js:308-341 | 'show' selects the show finder, 'episode' the episode finder, and every other media type the movie finder |
| DeletionRules.BucketOf | backend/models/jf_deletion_rules.js:161-167 | to_delete iff d <= 0, warning_soon iff 0 < d <= warning_days, protected otherwise |
| DeletionRules.ClassifyItems | backend/models/jf_deletion_rules.js:152-168 | the loop fills the three buckets the fold describes |
| DeletionRules.BucketsPartition | backend/models/jf_deletion_rules.js:152-168 | every item lands in exactly one bucket: the bucket sizes sum to the number of items |
| DeletionRules.InBucketMembers | backend/models/jf_deletion_rules.js:152-168 | a bucket holds the info of an item iff the item classifies into it |
| DeletionRules.FoundItemsAllDue | backend/models/jf_deletion_rules.js:161-167 | items at or past the threshold all go to to_delete, and warning_soon and protected stay empty |
| DeletionRules.PreviewSummary | backend/models/jf_deletion_rules.js:170-182 | the summary counts equal the bucket sizes and sum to `total_items` |
| DeletionRules.PreviewOfFoundItems | backend/models/jf_deletion_rules.js:161-182 | for finder output only to_delete is non-empty |
| DeletionRules.RuleById | backend/models/jf_deletion_rules.js:27-41 | None iff no rule has the id; otherwise a listed rule with that id |
| DeletionRules.PreviewRule | backend/models/jf_deletion_rules.js:140-189 | an unknown id gives "Rule not found"; otherwise the preview of that rule |
| DeletionRules.PreviewRules | backend/models/jf_deletion_rules.js:114-138 | one entry per rule, in order: disabled rules with status 'disabled' and no items, enabled ones with their preview |
| DeletionRules.PreviewRulesOwnRow | backend/models/jf_deletion_rules.js:129 | with distinct rule ids, the preview of an entry is looked up from the rule itself |
| DeletionProcessing.ServiceCalls | backend/models/jf_deletion_rules.js:354-366 | Sonarr is called iff it is enabled and the media type is 'show', Radarr iff enabled and 'movie', Jellyseerr iff enabled |
| DeletionProcessing.DeleteItem | backend/models/jf_deletion_rules.js:348-374 | the Jellyfin delete comes first, and its failure stops the deletion; the deletion fails iff the Jellyfin delete or the history insert fails |
| DeletionProcessing.DeleteItemSelection | backend/models/jf_deletion_rules.js:348-374 | the services are called only after a successful Jellyfin delete; the history is recorded iff it is reached; the notification is sent iff the deletion succeeded and Discord is enabled |
| DeletionProcessing.DeleteItemRecordsLast | backend/models/jf_deletion_rules.js:354-370 | the history record follows every service call |
| DeletionProcessing.DeleteItemSwallows | backend/models/jf_deletion_rules.js:385-471 | Sonarr, Radarr, Jellyseerr and Discord failures do not change what the deletion does |
| DeletionProcessing.ProcessItems | backend/models/jf_deletion_rules.js:208-230 | the item loop makes the calls of the fold and stops at the first failure; on success the processed and warning entries are those of the rule |
| DeletionProcessing.RunStopped | backend/models/jf_deletion_rules.js:208-230 | once an item's processing failed, the remaining items change nothing |
| DeletionProcessing.ProcessRules | backend/models/jf_deletion_rules.js:191-244 | a failed parse of `external_services` throws before any rule and makes no call; otherwise the rule loop skips disabled rules, on success reports the mode and the per-rule results, and a failure reports nothing |
| DeletionProcessing.RulesRunStopped | backend/models/jf_deletion_rules.js:191-244 | once a rule failed, the remaining rules change nothing |
| DeletionProcessing.DryRunItemsCallNothing | backend/models/jf_deletion_rules.js:211-223 | a dry run of a rule's items calls nothing and cannot fail |
| DeletionProcessing.DryRunCallsNothing | backend/models/jf_deletion_rules.js:211-223 | a dry run of all rules makes no deletion or warning call and succeeds |
| DeletionProcessing.ReportPerEnabledRule | backend/models/jf_deletion_rules.js:198-233 | a successful run reports exactly one result per enabled rule, in order |
| DeletionProcessing.DisabledRulesSkipped | backend/models/jf_deletion_rules.js:199 | disabled rules produce no call and no result |
| DeletionProcessing.EntriesMatchBuckets | backend/models/jf_deletion_rules.js:209-229 | processed entries are the delete-range items, warnings the warning-range items, and the protected items produce none |
| DeletionProcessing.EntryLabels | backend/models/jf_deletion_rules.js:217-227 | a dry run labels entries 'would_delete'/'would_warn', a live run 'deleted'/'warned' |
| DeletionProcessing.FoundItemsProcessed | backend/models/jf_deletion_rules.js:209-229 | for items at or past the threshold every item is processed and no warning is produced |
| DeletionProcessing.ReportHasNoWarnings | backend/models/jf_deletion_rules.js:267-332 | for finder output, no rule result holds a warning |
| SyncSchedulers.OtherSync | backend/tasks/FullSyncTask.js:73-82 | the full sync consults the partial sync's Running rows and vice versa |
| SyncSchedulers.FetchedDelay | backend/tasks/FullSyncTask.js:28-31 | a truthy `Interval` replaces the delay, and otherwise the delay stays |
| SyncSchedulers.FetchedSettings | backend/tasks/FullSyncTask.js:28-46 | without a truthy `Interval` the current delay is written into the task's entry; nothing else changes |
| SyncSchedulers.FetchSettles | backend/tasks/FullSyncTask.js:20-51 | after one fetch the delay and the stored `Interval` agree, so a second fetch changes nothing |
| SyncSchedulers.FetchWritesCurrentDelay | backend/tasks/RecentlyAddedItemsSyncTask.js:30-33 | once an interval has been read, clearing the setting writes back that interval, not the default |
| SyncSchedulers.SyncScheduler.constructor | backend/tasks/FullSyncTask.js:8-18 | the startup cleanup applies FailStaleRuns to the log when its update succeeds, the delay starts at the task's default, and a timer is armed |
| SyncSchedulers.SyncScheduler.FetchTaskSettings | backend/tasks/FullSyncTask.js:20-51 | with a configuration row the delay and settings become those of FetchedDelay and FetchedSettings; without one nothing changes |
| SyncSchedulers.SyncScheduler.IntervalCallback | backend/tasks/FullSyncTask.js:53-107 | no row or a NULL host or key returns without re-arming; with a logged run the tick skips iff the delay has not strictly passed, that run is Running or the other sync is Running; the timer is re-armed after a skip or a run, not after an exception |
| SyncSchedulers.RunWaitsForDelay | backend/tasks/FullSyncTask.js:84-95 | a tick that does not skip is strictly past every logged run of its kind plus the delay, and the other kind is not Running |
| SyncSchedulers.FirstRunIgnoresOther | backend/tasks/RecentlyAddedItemsSyncTask.js:84-99 | with no logged run of its kind the sync runs at once, without consulting the other kind |
| SyncSchedulers.CleanupUnblocksOwn | backend/tasks/FullSyncTask.js:9-15 | after the startup cleanup the scheduler's own latest row is never Running |
| BackupTask.BackupSettings | backend/tasks/BackupTask.js:24-51 | `Tasks.Backup.Interval` always ends up truthy: the stored value when it was truthy, the delay otherwise; nothing else changes |
| BackupTask.BackupScheduler.constructor | backend/tasks/BackupTask.js:12-55 | the startup cleanup as for the syncs; with a configuration row the delay is the truthy stored interval or the default and `Tasks.Backup.Interval` is always written back; without one nothing is written; a timer is armed |
| BackupTask.BackupScheduler.IntervalCallback | backend/tasks/BackupTask.js:57-100 | a config error returns without re-arming; the tick skips iff the latest Success or Running backup is within the delay or Running; a run logs Running, then Success when the backup returns |
| BackupTask.FailedBackupIgnored | backend/tasks/BackupTask.js:67-71 | a Failed backup never changes a skip decision |
| BackupTask.NextBackupWaits | backend/tasks/BackupTask.js:73-80 | after a backup at minute `now`, a tick skips exactly until `now` plus the delay |
| BackupTask.ThrownBackupBlocks | backend/tasks/BackupTask.js:87-97 | a backup that throws leaves the latest counted row Running, so every tick skips; the startup cleanup clears it |
| DeletionRulesTask.AfterProcess | backend/tasks/DeletionRulesTask.js:49-98 | a throwing run sets ERROR; a normal one leaves the state, and the timers are never touched |
| DeletionRulesTask.DeletionRulesTask.constructor | backend/tasks/DeletionRulesTask.js:8-12 | a new task is STOPPED with no timer |
| DeletionRulesTask.DeletionRulesTask.ProcessRules | backend/tasks/DeletionRulesTask.js:49-98 | the task's new state is `AfterProcess` of the old one: ERROR after a throwing run, unchanged otherwise |
| DeletionRulesTask.DeletionRulesTask.Start | backend/tasks/DeletionRulesTask.js:14-34 | the task's new state is `AfterStart` of the old one: nothing when RUNNING, else a run of the rules and a new timer |
| DeletionRulesTask.DeletionRulesTask.Stop | backend/tasks/DeletionRulesTask.js:36-47 | the task's new state is `AfterStop` of the old one: the stored timer cleared and STOPPED |
| DeletionRulesTask.DeletionRulesTask.GetState | backend/tasks/DeletionRulesTask.js:101-103 | the current state field is returned |
| DeletionRulesTask.ValidPreserved | backend/tasks/DeletionRulesTask.js:14-47 | every operation keeps the timer handles consistent |
| DeletionRulesTask.OnlyRunningBlocksStart | backend/tasks/DeletionRulesTask.js:16-19 | `start` changes nothing exactly when the task is RUNNING |
| DeletionRulesTask.StartArms | backend/tasks/DeletionRulesTask.js:21-27 | from any other state `start` ends RUNNING, or ERROR when the first run threw, and arms a new timer either way |
| DeletionRulesTask.StopClears | backend/tasks/DeletionRulesTask.js:36-42 | `stop` ends STOPPED with the stored timer cleared, and stopping twice is stopping once |
| DeletionRulesTask.StartStopLeavesNoTimer | backend/tasks/DeletionRulesTask.js:8-42 | a task started once and stopped leaves no timer behind |
| DeletionRulesTask.RestartAfterErrorLeaksTimer | backend/tasks/DeletionRulesTask.js:16-40 | a restart after an error arms a second timer without clearing the first, and after `stop` the first is still live |

## Left out

- Network clients (the Jellyfin API, Sonarr, Radarr, Jellyseerr, Discord) are outside the model. Their answers become inputs, and their calls are recorded events.
- Websocket progress updates are modelled only for the full sync's start message and its closing Success or Error message (`SyncTask.progress`). The intermediate "Update" messages and every other task's messages are not modelled. Informational log lines (colours, "Syncing... n/4", the "Rows updated." lines of the wrappers, the archive counts) are dropped; only error, counter and plugin lines are kept.
- Raw SQL text, escaping and injection are not modelled.
- A JavaScript object lists keys that are array indices (canonical decimal integers below 2^32 - 1) first, in numeric order, before the other keys in insertion order. The history grouping key is an item id followed by an episode id or "null", so it is taken never to be such an index, and the groups are listed in insertion order.
- Database errors thrown by direct queries are not modelled: those queries are taken to succeed. This covers the API routes and the schedulers. It also covers the direct queries of `backend/routes/sync.js` (the per-series SELECTs of `syncSeasons`/`syncEpisodes`, the item-info SELECTs, the orphan and migration queries, the plugin-import bounds, the procedure calls), which in the source throw into the `catch` of `fullSync`. It also covers the queries of `backend/models/jf_deletion_rules.js`, which throw into the rethrow of `processRules`.
- A media-server record without `MediaSources` makes `Item.MediaSources.map` throw a TypeError in `syncItemInfo` (sync.js:309, 330). Every `RemoteItem` carries a (possibly empty) list of media sources, so this error is not modelled.
- `moment` date formatting and clock reads become parameters (a format function and whole minutes). The SQL day arithmetic of the finders is not modelled.
- Timers are not modelled: their period, their firing and `sleep` are absent. The deletion-rules task's periodic `processRules` is therefore not modelled beyond the handle it stores.
- The log persistence of `DeletionRulesTask.processRules` (`insertLog`/`updateLog` and its log text) is not modelled: only whether the run threw matters.
- The internals of `getConfig` are not part of this model. The configuration becomes a `ConfigRow` with its presence and fields, or a configuration error.
- The stored procedures `jd_remove_orphaned_data` and `ji_insert_playback_plugin_data_to_activity_table` are function parameters. `ju_update_library_stats_data` changes nothing the model tracks, so it is only a phase.
- The record mappers `jf_*_mapping` are fixed field projections; only the "Id defined" filter matters.
- Seasons and episodes without an id are dropped from the submitted rows. The source submits them, and how the database reacts is unknown.
- `Interval` values are integers. A non-numeric JSON value is not modelled.
- The route handlers write back the whole settings object, even when the column was NULL. The model treats a NULL column as empty lists and an empty task map.
- Deletion-rule CRUD beyond the defaults is not modelled: `getRules` ordering, the library join, and `deleteRule`, which is a single `DELETE` by id.
- Rule `exclusions` are opaque JSON text, because the finders do not apply them.
- `partialSync` is exported from `backend/routes/sync.js` but not defined there. Only the PARTIAL_SYNC branches inside the helpers are modelled.
- Not modelled: `backend/routes/deletion.js`, `backend/routes/api-test.js`, `backend/tasks/tasks.js`, the migrations and the React UI.
- The race between a scheduler's log read and a concurrently inserted Running row is concurrency and is not modelled.
- Migration.MigrateArchivedActivity: the SQL return order of the mapping rows is unspecified, so the loops process pairs in any order. Its contract describes every order rather than one fixed order.
- FullSync.SyncBody: the per-table counter values are proved non-negative and printed by the counter lines, but their exact sums over the pages are not stated.
- PluginImport.SyncPlaybackPluginData: the fetched rows are the opaque answer to the query and are not interpreted.

## Findings

| source | as written | input that shows it | evidently intended | confidence | as-written member | corrected member |
|---|---|---|---|---|---|---|
| backend/routes/api.js:73-80 | the activity delete matches `NowPlayingItemId` against the library id | a purged archived movie "m1" of library "lib" with one playback row | the plays of the purged items are deleted | not executed | ApiPurge.PurgeAsWrittenKeepsMoviePlays | ApiPurge.PurgedActivityExact |
| backend/routes/api.js:213-226 | with only `current_password` given, the password update runs with `new_password` undefined | stored password "pw", body `{current_password: "pw"}` | no password is written without a new password | not executed | ApiSettings.CredentialsAsWrittenStoresUndefined | ApiSettings.Credentials |
| backend/routes/api.js:877-882 | the "http://" prefix is applied to the original url, discarding the home-page strip | "host/web/index.html#!/home.html" | the home-page tail is removed whether or not a scheme is present | not executed | ApiUrl.NormalizeHomePageKept | ApiUrl.Normalize |
