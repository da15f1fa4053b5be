/** The full sync run (`fullSync` of backend/routes/sync.js): users, library folders, then every
    page of every library that is not excluded, the counters, the FULL_SYNC-only archiving, the
    orphan cleanup, the activity migration and the library statistics. A FAILURE in a throwing
    wrapper ends the run in its `catch`. */
module FullSync {
  import opened Wrappers
  import opened TaskStates
  import opened TaskLog
  import opened Catalog
  import opened SyncRun
  import opened SyncUsers
  import opened SyncLibraries
  import opened SyncItems
  import opened SyncShows
  import opened SyncItemInfo
  import opened Orphans
  import opened Migration

  // ---- Inputs.

  /** The configuration row as the run reads it: an error, or the excluded libraries (an absent
      list reads as empty). */
  datatype Config = ConfigError(message: string) | Settings(excludedLibraries: seq<Id>)

  /** What the media server answers during the run: the users, the libraries, and for each library
      its pages of 200 records; the page at `startIndex` 200 * p is `pages(id)[p]`, and every page
      beyond the list is empty. */
  datatype Server = Server(users: seq<RemoteUser>, libraries: seq<RemoteLibrary>, pages: Id -> seq<seq<RemoteItem>>)

  const PageSize := 200

  function PageAt(pages: seq<seq<RemoteItem>>, p: nat): seq<RemoteItem>
  {
    if p < |pages| then pages[p] else []
  }

  /** The number of pages the page loop reads before it meets the first empty page. */
  function PagesRead(pages: seq<seq<RemoteItem>>): (n: nat)
    ensures n <= |pages| && PageAt(pages, n) == []
    ensures forall p :: 0 <= p < n ==> pages[p] != []
  {
    if |pages| == 0 || pages[0] == [] then 0
    else
      var n := 1 + PagesRead(pages[1..]);
      assert forall p :: 1 <= p < n ==> pages[p] == pages[1..][p - 1];
      n
  }

  /** The first empty page the loop meets is the one `PagesRead` counts up to. */
  lemma EmptyPageIsLast(pages: seq<seq<RemoteItem>>, p: nat)
    requires p <= PagesRead(pages) && PageAt(pages, p) == []
    ensures p == PagesRead(pages)
  {
  }

  // ---- One page.

  /** The records of a page with their `ParentId` set to the library. */
  function WithParent(records: seq<RemoteItem>, library: Id): (r: seq<RemoteItem>)
    ensures |r| == |records|
    ensures forall k :: 0 <= k < |r| ==> r[k] == records[k].(parentId := library)
  {
    if records == [] then [] else [records[0].(parentId := library)] + WithParent(records[1..], library)
  }

  /** The records whose `Type` is one of `types`, in order. */
  function OfTypes(records: seq<RemoteItem>, types: set<ItemType>): (r: seq<RemoteItem>)
    ensures forall x :: x in r <==> x in records && x.itemType in types
  {
    if records == [] then []
    else (if records[0].itemType in types then [records[0]] else []) + OfTypes(records[1..], types)
  }

  const ItemKinds: set<ItemType> := {Movie, Audio, Series}
  const SeasonKinds: set<ItemType> := {Season}
  const EpisodeKinds: set<ItemType> := {Episode}

  /** The ids a page pushes onto a fetched-id list; a record without an id pushes nothing that can
      match a stored row. */
  function IdList(records: seq<RemoteItem>): (r: seq<Id>)
    ensures forall x :: x in r <==> x in DefinedIds(records)
  {
    if records == [] then []
    else
      var rest := IdList(records[1..]);
      assert forall x :: x in DefinedIds(records) <==> (records[0].id == Some(x) || x in DefinedIds(records[1..])) by {
        assert forall y :: y in records <==> y == records[0] || y in records[1..];
      }
      (if records[0].id.Some? then [records[0].id.value] else []) + rest
  }

  /** The three fetched-id lists. */
  datatype Fetched = Fetched(items: seq<Id>, seasons: seq<Id>, episodes: seq<Id>)

  function FetchedOfPage(page: seq<RemoteItem>): Fetched
  {
    Fetched(IdList(OfTypes(page, ItemKinds)), IdList(OfTypes(page, SeasonKinds)), IdList(OfTypes(page, EpisodeKinds)))
  }

  function Join(a: Fetched, b: Fetched): Fetched
  {
    Fetched(a.items + b.items, a.seasons + b.seasons, a.episodes + b.episodes)
  }

  /** The ten counters of the run. */
  datatype Totals = Totals(items: Counts, seasons: Counts, episodes: Counts, info: InfoCounts)

  const NoTotals := Totals(Counts(0, 0), Counts(0, 0), Counts(0, 0), InfoCounts(0, 0, 0, 0))

  function Add(a: Totals, b: Totals): Totals
  {
    Totals(Plus(a.items, b.items), Plus(a.seasons, b.seasons), Plus(a.episodes, b.episodes),
           InfoCounts(a.info.insertItem + b.info.insertItem, a.info.updateItem + b.info.updateItem,
                      a.info.insertEpisode + b.info.insertEpisode, a.info.updateEpisode + b.info.updateEpisode))
  }

  predicate NonNegative(t: Totals)
  {
    && t.items.inserted >= 0 && t.items.updated >= 0
    && t.seasons.inserted >= 0 && t.seasons.updated >= 0
    && t.episodes.inserted >= 0 && t.episodes.updated >= 0
    && t.info.insertItem >= 0 && t.info.updateItem >= 0 && t.info.insertEpisode >= 0 && t.info.updateEpisode >= 0
  }

  /** `after` extends `before` with Failed results only. */
  predicate FailedSince(before: seq<TaskState>, after: seq<TaskState>)
  {
    before <= after && forall k :: |before| <= k < |after| ==> after[k] == Failed
  }

  lemma FailedSinceRefl(s: seq<TaskState>)
    ensures FailedSince(s, s)
  {
  }

  lemma FailedSinceTrans(a: seq<TaskState>, b: seq<TaskState>, c: seq<TaskState>)
    requires FailedSince(a, b) && FailedSince(b, c)
    ensures FailedSince(a, c)
  {
    forall k | |a| <= k < |c| ensures c[k] == Failed {
      if k < |b| {
        assert c[k] == b[k];
      }
    }
  }

  /** A season or episode pass over a page's records, run only when there are any. */
  function PassIfAny<R>(partial: bool, t: ShowTable<R>, records: seq<RemoteItem>, script: seq<Outcome>, start: ShowRun<R>): ShowRun<R>
  {
    if |records| == 0 then start else ShowFold(partial, t, records, script, start, SeriesIds(records), |records|)
  }

  /** Every call from index `from` on is an unchecked insert into one of `tables`. */
  predicate UncheckedInserts(calls: seq<BulkCall>, from: nat, tables: set<Table>)
  {
    forall k :: from <= k < |calls| ==> calls[k].table in tables && calls[k].op == Insert && !calls[k].checked
  }

  /** Two runs of unchecked inserts, one after the other, are one such run into either table. */
  lemma UncheckedInsertsJoin(c0: seq<BulkCall>, c1: seq<BulkCall>, c2: seq<BulkCall>, t1: Table, t2: Table)
    requires c0 <= c1 <= c2
    requires UncheckedInserts(c1, |c0|, {t1}) && UncheckedInserts(c2, |c1|, {t2})
    ensures UncheckedInserts(c2, |c0|, {t1, t2})
  {
    forall k | |c0| <= k < |c2|
      ensures c2[k].table in {t1, t2} && c2[k].op == Insert && !c2[k].checked
    {
      if k < |c1| {
        assert c2[k] == c1[k];
      }
    }
  }

  /** A pass over a page only appends calls, all unchecked inserts into its own table, adds only
      Failed results, keeps its counters non-negative, and does nothing without records. */
  lemma PassIfAnyFacts<R>(partial: bool, t: ShowTable<R>, records: seq<RemoteItem>, script: seq<Outcome>, start: ShowRun<R>)
    requires start.counts == Counts(0, 0)
    ensures var run := PassIfAny(partial, t, records, script, start);
            && start.calls <= run.calls && UncheckedInserts(run.calls, |start.calls|, {t.table})
            && FailedSince(start.marks, run.marks)
            && run.counts.inserted >= 0 && run.counts.updated >= 0
            && (|records| == 0 ==> run == start)
  {
    if |records| > 0 {
      ShowFoldCounts(partial, t, records, script, start, SeriesIds(records), |records|);
      ShowFoldMarks(partial, t, records, script, start, SeriesIds(records), |records|);
      ShowFoldCalls(partial, t, records, script, start, SeriesIds(records), |records|);
    }
  }

  /** The season and episode syncs of a page, which log a failed insert without throwing. */
  method SyncShowsOfPage(task: SyncTask, store: Store, seasons: seq<RemoteItem>, episodes: seq<RemoteItem>)
    returns (s: Counts, e: Counts)
    modifies task`calls, task`loggedData, task`results, store`seasons, store`episodes
    ensures var partial := task.taskName == PartialSync;
            var sr := PassIfAny(partial, SeasonPass, seasons, task.script,
                                ShowRun(old(store.seasons), old(task.calls), Counts(0, 0), old(task.loggedData), old(task.results)));
            var er := PassIfAny(partial, EpisodePass, episodes, task.script,
                                ShowRun(old(store.episodes), sr.calls, Counts(0, 0), sr.log, sr.marks));
            && store.seasons == sr.m && s == sr.counts
            && store.episodes == er.m && e == er.counts
            && task.calls == er.calls && task.loggedData == er.log && task.results == er.marks
    ensures |seasons| == 0 ==> store.seasons == old(store.seasons)
    ensures |episodes| == 0 ==> store.episodes == old(store.episodes)
    ensures |seasons| == 0 && |episodes| == 0 ==> task.calls == old(task.calls)
    ensures old(task.calls) <= task.calls && UncheckedInserts(task.calls, |old(task.calls)|, {SeasonsTable, EpisodesTable})
    ensures s.inserted >= 0 && s.updated >= 0 && e.inserted >= 0 && e.updated >= 0
    ensures FailedSince(old(task.results), task.results)
  {
    ghost var partial := task.taskName == PartialSync;
    ghost var c0, r0 := task.calls, task.results;
    ghost var sr := PassIfAny(partial, SeasonPass, seasons, task.script,
                              ShowRun(store.seasons, task.calls, Counts(0, 0), task.loggedData, task.results));
    PassIfAnyFacts(partial, SeasonPass, seasons, task.script, ShowRun(store.seasons, task.calls, Counts(0, 0), task.loggedData, task.results));
    s, e := Counts(0, 0), Counts(0, 0);
    if |seasons| > 0 {
      s := SyncSeasons(task, store, seasons);
    }
    assert ShowRun(store.seasons, task.calls, s, task.loggedData, task.results) == sr;
    ghost var er := PassIfAny(partial, EpisodePass, episodes, task.script,
                              ShowRun(store.episodes, sr.calls, Counts(0, 0), sr.log, sr.marks));
    PassIfAnyFacts(partial, EpisodePass, episodes, task.script, ShowRun(store.episodes, sr.calls, Counts(0, 0), sr.log, sr.marks));
    if |episodes| > 0 {
      e := SyncEpisodes(task, store, episodes);
    }
    assert ShowRun(store.episodes, task.calls, e, task.loggedData, task.results) == er;
    FailedSinceTrans(r0, sr.marks, task.results);
    UncheckedInsertsJoin(c0, sr.calls, task.calls, SeasonsTable, EpisodesTable);
  }

  /** The info rows a page collects: those of its items, then those of its episodes. */
  function InfoRowsOfPage(taskName: TaskName, stored: set<Id>, seasonsAndEpisodes: seq<RemoteItem>, items: seq<RemoteItem>): seq<(Id, InfoRow)>
  {
    EpisodeInfoPass(taskName, stored, seasonsAndEpisodes, ItemInfoPass(taskName, stored, items).rows).rows
  }

  /** The item-info sync of a page. */
  method SyncInfoOfPage(task: SyncTask, store: Store, seasonsAndEpisodes: seq<RemoteItem>, items: seq<RemoteItem>)
    returns (c: InfoCounts)
    modifies task`calls, task`loggedData, task`results, store`itemInfo
    ensures var rows := InfoRowsOfPage(task.taskName, old(store.itemInfo).Keys, seasonsAndEpisodes, items);
            var o := AnswerAt(task.script, |old(task.calls)|);
            && task.calls == old(task.calls) + (if |rows| == 0 then [] else [BulkCall(ItemInfoTable, Insert, |rows|, o, false)])
            && store.itemInfo == (if |rows| != 0 && o.SUCCESS? then old(store.itemInfo) + ToMap(rows) else old(store.itemInfo))
            && if |rows| != 0 && !o.SUCCESS?
               then task.loggedData == old(task.loggedData) + [ErrorLine(BulkCall(ItemInfoTable, Insert, |rows|, o, false))]
                    && task.results == old(task.results) + [Failed]
               else task.loggedData == old(task.loggedData) && task.results == old(task.results)
    ensures var ip := ItemInfoPass(task.taskName, old(store.itemInfo).Keys, items);
            var ep := EpisodeInfoPass(task.taskName, old(store.itemInfo).Keys, seasonsAndEpisodes, ip.rows);
            c == InfoCounts(ip.inserted, ip.updated, ep.inserted, ep.updated)
    ensures c.insertItem >= 0 && c.updateItem >= 0 && c.insertEpisode >= 0 && c.updateEpisode >= 0
    ensures FailedSince(old(task.results), task.results)
  {
    var stored := store.itemInfo.Keys;
    c := SyncItemInfo.SyncItemInfo(task, store, seasonsAndEpisodes, items);
    var fromItems := ItemInfoSources(items);
    var fromEpisodes := EpisodeInfoSources(seasonsAndEpisodes);
    assert AllIdentified(fromItems) by { assert forall k :: 0 <= k < |fromItems| ==> fromItems[k] in fromItems; }
    assert AllIdentified(fromEpisodes) by { assert forall k :: 0 <= k < |fromEpisodes| ==> fromEpisodes[k] in fromEpisodes; }
    InfoFoldCounts(task.taskName, stored, ItemFile, InfoPass([], 0, 0), fromItems, |fromItems|);
    var ip := ItemInfoPass(task.taskName, stored, items);
    InfoFoldCounts(task.taskName, stored, EpisodeFile, InfoPass(ip.rows, 0, 0), fromEpisodes, |fromEpisodes|);
  }

  /** What the season, episode and item-info syncs of a page leave behind. */
  datatype PageEnd = PageEnd(seasons: map<Id, SeasonRow>, episodes: map<Id, EpisodeRow>, itemInfo: map<Id, InfoRow>,
                             calls: seq<BulkCall>, log: seq<LogLine>, marks: seq<TaskState>,
                             seasonCounts: Counts, episodeCounts: Counts, infoCounts: InfoCounts)

  /** The season pass, then the episode pass, then the one unchecked item-info insert of a page,
      each made only when it has something to write, starting from the given tables and run. */
  function RestOfPage(taskName: TaskName, script: seq<Outcome>,
                      seasons: map<Id, SeasonRow>, episodes: map<Id, EpisodeRow>, itemInfo: map<Id, InfoRow>,
                      calls: seq<BulkCall>, log: seq<LogLine>, marks: seq<TaskState>,
                      seasonRecords: seq<RemoteItem>, episodeRecords: seq<RemoteItem>, items: seq<RemoteItem>): PageEnd
  {
    var partial := taskName == PartialSync;
    var sr := PassIfAny(partial, SeasonPass, seasonRecords, script, ShowRun(seasons, calls, Counts(0, 0), log, marks));
    var er := PassIfAny(partial, EpisodePass, episodeRecords, script, ShowRun(episodes, sr.calls, Counts(0, 0), sr.log, sr.marks));
    var ip := ItemInfoPass(taskName, itemInfo.Keys, items);
    var ep := EpisodeInfoPass(taskName, itemInfo.Keys, seasonRecords + episodeRecords, ip.rows);
    var info := ep.rows;
    var c := BulkCall(ItemInfoTable, Insert, |info|, AnswerAt(script, |er.calls|), false);
    var counts := InfoCounts(ip.inserted, ip.updated, ep.inserted, ep.updated);
    if |info| == 0 then PageEnd(sr.m, er.m, itemInfo, er.calls, er.log, er.marks, sr.counts, er.counts, counts)
    else if c.outcome.SUCCESS? then PageEnd(sr.m, er.m, itemInfo + ToMap(info), er.calls + [c], er.log, er.marks, sr.counts, er.counts, counts)
    else PageEnd(sr.m, er.m, itemInfo, er.calls + [c], er.log + [ErrorLine(c)], er.marks + [Failed], sr.counts, er.counts, counts)
  }

  /** The syncs of a page that log a failed insert without throwing. */
  method SyncRestOfPage(task: SyncTask, store: Store, seasons: seq<RemoteItem>, episodes: seq<RemoteItem>, items: seq<RemoteItem>)
    returns (s: Counts, e: Counts, i: InfoCounts)
    modifies task`calls, task`loggedData, task`results, store`seasons, store`episodes, store`itemInfo
    ensures PageEnd(store.seasons, store.episodes, store.itemInfo, task.calls, task.loggedData, task.results, s, e, i)
            == RestOfPage(task.taskName, task.script, old(store.seasons), old(store.episodes), old(store.itemInfo),
                          old(task.calls), old(task.loggedData), old(task.results), seasons, episodes, items)
    ensures s.inserted >= 0 && s.updated >= 0 && e.inserted >= 0 && e.updated >= 0
    ensures i.insertItem >= 0 && i.updateItem >= 0 && i.insertEpisode >= 0 && i.updateEpisode >= 0
    ensures FailedSince(old(task.results), task.results)
  {
    ghost var r0 := task.results;
    s, e := SyncShowsOfPage(task, store, seasons, episodes);
    ghost var r1 := task.results;
    i := SyncInfoOfPage(task, store, seasons + episodes, items);
    FailedSinceTrans(r0, r1, task.results);
  }

  /** The item sync of a page, made only when the page has items; it may throw. */
  method SyncItemsOfPage(task: SyncTask, store: Store, items: seq<RemoteItem>) returns (ok: bool, c: Counts)
    modifies task`calls, task`loggedData, task`throws, store`items
    ensures var rows := ItemRows(task.taskName == PartialSync, old(store.libraries).Keys, old(store.items).Keys, items);
            var o := AnswerAt(task.script, |old(task.calls)|);
            && (ok <==> |rows| == 0 || o.SUCCESS?)
            && store.items == (if ok then old(store.items) + ToMap(rows) else old(store.items))
            && task.calls == old(task.calls) + (if |rows| == 0 then [] else [BulkCall(ItemsTable, Insert, |rows|, o, true)])
            && c.inserted >= 0 && c.updated >= 0
    ensures Step(old(task.throws), task.throws, task.calls, ok)
    ensures ok ==> task.loggedData == old(task.loggedData)
    ensures !ok ==> task.loggedData == old(task.loggedData) + [ErrorLine(task.calls[|task.calls| - 1])]
  {
    ok, c := true, Counts(0, 0);
    if |items| > 0 {
      ok, c := SyncLibraryItems(task, store, items);
    } else {
      assert ItemRows(task.taskName == PartialSync, store.libraries.Keys, store.items.Keys, items) == [];
      assert ToMap<ItemRow>([]) == map[];
      assert store.items + ToMap<ItemRow>([]) == store.items;
    }
  }

  /** One iteration of the page loop: the records get the library as parent and are split by type;
      the item sync may throw, the other syncs do not. */
  method SyncPage(task: SyncTask, store: Store, page: seq<RemoteItem>, library: Id) returns (ok: bool, t: Totals, f: Fetched)
    modifies task`calls, task`loggedData, task`results, task`throws, store`items, store`seasons, store`episodes, store`itemInfo
    ensures Step(old(task.throws), task.throws, task.calls, ok)
    ensures !ok ==> |task.calls| > 0 && task.loggedData == old(task.loggedData) + [ErrorLine(task.calls[|task.calls| - 1])]
    ensures !ok ==> EndsWithError(task.loggedData, task.calls)
    ensures NonNegative(t)
    ensures f == FetchedOfPage(WithParent(page, library))
    ensures FailedSince(old(task.results), task.results)
    ensures var rows := ItemRows(task.taskName == PartialSync, old(store.libraries).Keys, old(store.items).Keys,
                                 OfTypes(WithParent(page, library), ItemKinds));
            && (ok <==> |rows| == 0 || AnswerAt(task.script, |old(task.calls)|).SUCCESS?)
            && store.items == (if ok then old(store.items) + ToMap(rows) else old(store.items))
    ensures !ok ==> store.seasons == old(store.seasons) && store.episodes == old(store.episodes) && store.itemInfo == old(store.itemInfo)
    ensures ok ==>
            var records := WithParent(page, library);
            var rows := ItemRows(task.taskName == PartialSync, old(store.libraries).Keys, old(store.items).Keys, OfTypes(records, ItemKinds));
            var afterItems := old(task.calls) + (if |rows| == 0 then [] else [BulkCall(ItemsTable, Insert, |rows|, AnswerAt(task.script, |old(task.calls)|), true)]);
            PageEnd(store.seasons, store.episodes, store.itemInfo, task.calls, task.loggedData, task.results, t.seasons, t.episodes, t.info)
            == RestOfPage(task.taskName, task.script, old(store.seasons), old(store.episodes), old(store.itemInfo),
                          afterItems, old(task.loggedData), old(task.results),
                          OfTypes(records, SeasonKinds), OfTypes(records, EpisodeKinds), OfTypes(records, ItemKinds))
  {
    var records := WithParent(page, library);
    var items := OfTypes(records, ItemKinds);
    var seasons := OfTypes(records, SeasonKinds);
    var episodes := OfTypes(records, EpisodeKinds);
    f := Fetched(IdList(items), IdList(seasons), IdList(episodes));
    t := NoTotals;
    ok := true;
    FailedSinceRefl(task.results);
    ghost var seasons0, episodes0, info0, log0, r0 := store.seasons, store.episodes, store.itemInfo, task.loggedData, task.results;
    var c;
    ok, c := SyncItemsOfPage(task, store, items);
    if !ok {
      return;
    }
    ghost var afterItems := task.calls;
    var s, e, i := SyncRestOfPage(task, store, seasons, episodes, items);
    assert PageEnd(store.seasons, store.episodes, store.itemInfo, task.calls, task.loggedData, task.results, s, e, i)
           == RestOfPage(task.taskName, task.script, seasons0, episodes0, info0, afterItems, log0, r0, seasons, episodes, items);
    t := Totals(c, s, e, i);
  }

  /** The fetched ids of the first `n` pages of a library. */
  function LibraryFetched(pages: seq<seq<RemoteItem>>, library: Id, n: nat): Fetched
  {
    if n == 0 then Fetched([], [], [])
    else Join(LibraryFetched(pages, library, n - 1), FetchedOfPage(WithParent(PageAt(pages, n - 1), library)))
  }

  /** The last call threw and the last log line reports it. */
  predicate EndsWithError(log: seq<LogLine>, calls: seq<BulkCall>)
  {
    LastThrew(calls) && |log| > 0 && log[|log| - 1] == ErrorLine(calls[|calls| - 1])
  }

  /** One iteration of the page loop, adding the page's counters and ids to those of the pages
      before it. */
  method ReadPage(task: SyncTask, store: Store, library: Id, pages: seq<seq<RemoteItem>>, p: nat, t0: Totals, f0: Fetched)
    returns (ok: bool, t: Totals, f: Fetched)
    requires PageAt(pages, p) != [] && p <= PagesRead(pages)
    requires NonNegative(t0) && f0 == LibraryFetched(pages, library, p)
    modifies task`calls, task`loggedData, task`results, task`throws, store`items, store`seasons, store`episodes, store`itemInfo
    ensures Step(old(task.throws), task.throws, task.calls, ok)
    ensures !ok ==> EndsWithError(task.loggedData, task.calls)
    ensures NonNegative(t) && p < PagesRead(pages)
    ensures FailedSince(old(task.results), task.results)
    ensures ok ==> f == LibraryFetched(pages, library, p + 1)
  {
    var pageOk, pt, pf := SyncPage(task, store, PageAt(pages, p), library);
    ok, t, f := pageOk, Add(t0, pt), Join(f0, pf);
  }

  /** The page loop of one library: pages are read at start index 0, 200, 400, ... until the first
      empty page. */
  method SyncLibrary(task: SyncTask, store: Store, library: Id, pages: seq<seq<RemoteItem>>) returns (ok: bool, t: Totals, f: Fetched)
    modifies task`calls, task`loggedData, task`results, task`throws, store`items, store`seasons, store`episodes, store`itemInfo
    ensures Step(old(task.throws), task.throws, task.calls, ok)
    ensures !ok ==> EndsWithError(task.loggedData, task.calls)
    ensures NonNegative(t)
    ensures FailedSince(old(task.results), task.results)
    ensures ok ==> f == LibraryFetched(pages, library, PagesRead(pages))
  {
    var startIndex := 0;
    var p := 0;
    var page := PageAt(pages, p);
    ghost var last := PagesRead(pages);
    ghost var throws0, results0 := task.throws, task.results;
    FailedSinceRefl(results0);
    t, f, ok := NoTotals, Fetched([], [], []), true;
    while ok && |page| != 0
      invariant p <= last && page == PageAt(pages, p)
      invariant startIndex == PageSize * p
      invariant Step(throws0, task.throws, task.calls, ok)
      invariant !ok ==> EndsWithError(task.loggedData, task.calls)
      invariant NonNegative(t)
      invariant FailedSince(results0, task.results)
      invariant ok ==> f == LibraryFetched(pages, library, p)
      decreases last - p, ok
    {
      // the source's "no items found" report (an empty page at start index 0) sits inside this
      // loop, whose guard already excludes an empty page, so it never fires
      ghost var r := task.results;
      ok, t, f := ReadPage(task, store, library, pages, p, t, f);
      FailedSinceTrans(results0, r, task.results);
      if ok {
        startIndex := startIndex + PageSize;
        p := p + 1;
        page := PageAt(pages, p);
      }
    }
    if ok {
      EmptyPageIsLast(pages, p);
    }
  }

  /** The phases of the first `n` libraries of the media sync. */
  function LibraryPhases(libraries: seq<RemoteLibrary>, n: nat): seq<Phase>
    requires n <= |libraries|
  {
    if n == 0 then [] else LibraryPhases(libraries, n - 1) + [MediaSync(libraries[n - 1].name)]
  }

  lemma LibraryPhasesStep(before: seq<Phase>, libraries: seq<RemoteLibrary>, n: nat)
    requires n < |libraries|
    ensures before + LibraryPhases(libraries, n) + [MediaSync(libraries[n].name)] == before + LibraryPhases(libraries, n + 1)
  {
  }

  /** The fetched ids of the first `n` libraries. */
  function AllFetched(libraries: seq<RemoteLibrary>, pagesOf: Id -> seq<seq<RemoteItem>>, n: nat): Fetched
    requires n <= |libraries|
  {
    if n == 0 then Fetched([], [], [])
    else
      var l := libraries[n - 1];
      Join(AllFetched(libraries, pagesOf, n - 1), LibraryFetched(pagesOf(l.id), l.id, PagesRead(pagesOf(l.id))))
  }

  /** One library of the media sync: its phase starts, then its pages are read. */
  method EnterLibrary(task: SyncTask, store: Store, library: RemoteLibrary, pagesOf: Id -> seq<seq<RemoteItem>>)
    returns (ok: bool, t: Totals, f: Fetched)
    modifies task`calls, task`loggedData, task`results, task`throws, task`phases, store`items, store`seasons, store`episodes, store`itemInfo
    ensures task.phases == old(task.phases) + [MediaSync(library.name)]
    ensures Step(old(task.throws), task.throws, task.calls, ok)
    ensures !ok ==> EndsWithError(task.loggedData, task.calls)
    ensures NonNegative(t)
    ensures FailedSince(old(task.results), task.results)
    ensures ok ==> f == LibraryFetched(pagesOf(library.id), library.id, PagesRead(pagesOf(library.id)))
  {
    task.phases := task.phases + [MediaSync(library.name)];
    ok, t, f := SyncLibrary(task, store, library.id, pagesOf(library.id));
  }

  /** The library loop of the media sync; `done` counts the libraries entered. */
  method SyncMedia(task: SyncTask, store: Store, libraries: seq<RemoteLibrary>, pagesOf: Id -> seq<seq<RemoteItem>>)
    returns (ok: bool, done: nat, t: Totals, f: Fetched)
    modifies task`calls, task`loggedData, task`results, task`throws, task`phases, store`items, store`seasons, store`episodes, store`itemInfo
    ensures done <= |libraries| && (ok ==> done == |libraries|)
    ensures task.phases == old(task.phases) + LibraryPhases(libraries, done)
    ensures Step(old(task.throws), task.throws, task.calls, ok)
    ensures !ok ==> EndsWithError(task.loggedData, task.calls)
    ensures NonNegative(t)
    ensures FailedSince(old(task.results), task.results)
    ensures ok ==> f == AllFetched(libraries, pagesOf, |libraries|)
  {
    t, f, ok, done := NoTotals, Fetched([], [], []), true, 0;
    ghost var phases0, throws0, results0 := task.phases, task.throws, task.results;
    FailedSinceRefl(results0);
    while done < |libraries|
      invariant done <= |libraries|
      invariant task.phases == phases0 + LibraryPhases(libraries, done)
      invariant task.throws == throws0
      invariant NonNegative(t)
      invariant FailedSince(results0, task.results)
      invariant f == AllFetched(libraries, pagesOf, done)
    {
      ghost var r := task.results;
      var lt, lf;
      ok, lt, lf := EnterLibrary(task, store, libraries[done], pagesOf);
      FailedSinceTrans(results0, r, task.results);
      LibraryPhasesStep(phases0, libraries, done);
      done := done + 1;
      if !ok {
        break;
      }
      t, f := Add(t, lt), Join(f, lf);
    }
  }

  // ---- The run.

  /** The libraries the media sync walks: those whose id is not excluded, in the server's order. */
  function Included(libraries: seq<RemoteLibrary>, excluded: seq<Id>): (r: seq<RemoteLibrary>)
    ensures forall l :: l in r <==> l in libraries && l.id !in excluded
    ensures |r| <= |libraries|
  {
    if |libraries| == 0 then []
    else (if libraries[0].id in excluded then [] else [libraries[0]]) + Included(libraries[1..], excluded)
  }

  /** The ids of the excluded libraries the server still reports. */
  function ExistingExcluded(libraries: seq<RemoteLibrary>, excluded: seq<Id>): (r: set<Id>)
    ensures forall id :: id in r <==> id in excluded && exists l :: l in libraries && l.id == id
  {
    set l | l in libraries && l.id in excluded :: l.id
  }

  /** `after` extends `before` by a prefix of `plan`. */
  predicate Advanced(before: seq<Phase>, after: seq<Phase>, plan: seq<Phase>)
  {
    before <= after <= before + plan
  }

  lemma AdvancedPartial(before: seq<Phase>, after: seq<Phase>, plan: seq<Phase>, more: seq<Phase>)
    requires Advanced(before, after, plan)
    ensures Advanced(before, after, plan + more)
  {
    assert before + plan <= before + (plan + more);
  }

  lemma AdvancedWithin(before: seq<Phase>, done: seq<Phase>, after: seq<Phase>, plan: seq<Phase>)
    requires Advanced(before + done, after, plan)
    ensures Advanced(before, after, done + plan)
  {
    assert before + done + plan == before + (done + plan);
  }

  /** The phases after the library folders, in order. */
  function CatalogPhases(included: seq<RemoteLibrary>): seq<Phase>
  {
    LibraryPhases(included, |included|) + [ItemArchive, SeasonEpisodeArchive, OrphanCleanup, ActivityMigration, LibraryStats]
  }

  /** Every phase of a run that completes over the given libraries, in order. */
  function FullPhases(included: seq<RemoteLibrary>): seq<Phase>
  {
    [UserSync, LibrarySync] + CatalogPhases(included)
  }

  /** The three counter lines, with a negative inserted count shown as 0. */
  function CountLines(t: Totals): seq<LogLine>
  {
    [CountsLine(ItemCounts, if t.items.inserted > 0 then t.items.inserted else 0, t.items.updated),
     CountsLine(SeasonCounts, if t.seasons.inserted > 0 then t.seasons.inserted else 0, t.seasons.updated),
     CountsLine(EpisodeCounts, if t.episodes.inserted > 0 then t.episodes.inserted else 0, t.episodes.updated)]
  }

  /** The archive cascade has reached a fixpoint: the seasons and episodes of an archived series are
      archived, and every active episode has a season. */
  predicate CascadeSettled(items: map<Id, ItemRow>, seasons: map<Id, SeasonRow>, episodes: map<Id, EpisodeRow>)
  {
    && (forall id :: id in seasons && seasons[id].seriesId in ArchivedSeries(items) ==> seasons[id].archived)
    && (forall id :: id in episodes && episodes[id].seriesId in ArchivedSeries(items) ==> episodes[id].archived)
    && (forall id :: id in episodes && !episodes[id].archived ==> episodes[id].seasonId.Some?)
  }

  /** Whatever the storage procedure left, a cleanup whose updates all succeed settles the cascade. */
  lemma CleanupSettles(t: Tables)
    ensures var r := OrphansAfter(t); CascadeSettled(r.items, r.seasons, r.episodes)
  {
    OrphanCascade(t);
    CascadeKeepsSeasons(t);
  }

  /** The FULL_SYNC-only archiving: items, then seasons and episodes, missing from the fetched lists. */
  method ArchivePhase(task: SyncTask, store: Store, f: Fetched) returns (ok: bool)
    modifies task`calls, task`loggedData, task`throws, task`phases, store`items, store`seasons, store`episodes
    ensures ok ==> task.phases == old(task.phases) + [ItemArchive, SeasonEpisodeArchive]
    ensures Advanced(old(task.phases), task.phases, [ItemArchive, SeasonEpisodeArchive])
    ensures Step(old(task.throws), task.throws, task.calls, ok)
    ensures ok ==> task.loggedData == old(task.loggedData)
    ensures !ok ==> task.loggedData == old(task.loggedData) + [ErrorLine(task.calls[|task.calls| - 1])]
    ensures ok ==> store.items == ArchiveItems(old(store.items), ActiveItems(old(store.items)) - Members(f.items))
    ensures ok ==> store.seasons == ArchiveSeasons(old(store.seasons), ActiveSeasons(old(store.seasons)) - Members(f.seasons))
    ensures ok ==> store.episodes == ArchiveEpisodes(old(store.episodes), ActiveEpisodes(old(store.episodes)) - Members(f.episodes))
    ensures store.items == ArchiveItems(old(store.items), ActiveItems(old(store.items)) - Members(f.items))
            || (!ok && store.items == old(store.items) && store.seasons == old(store.seasons) && store.episodes == old(store.episodes))
  {
    task.phases := task.phases + [ItemArchive];
    ok := ArchiveLibraryItems(task, store, f.items);
    if ok {
      task.phases := task.phases + [SeasonEpisodeArchive];
      ok := ArchiveSeasonsAndEpisodes(task, store, f.seasons, f.episodes);
    }
  }

  /** After a cleanup phase: no orphan is left for the archive cascade, and no playback row
      still points at an archived item or episode that was re-added. */
  ghost predicate Settled(store: Store)
    reads store
  {
    && CascadeSettled(store.items, store.seasons, store.episodes)
    && MovieMapping(store.activity, store.items) == {}
    && EpisodeMapping(store.activity, store.episodes) == {}
  }

  /** Orphan cleanup, activity migration and library statistics. The statistics procedure changes
      nothing this model tracks. */
  method CleanupPhase(task: SyncTask, store: Store, cleanup: Tables -> Tables) returns (ok: bool)
    modifies store, task`calls, task`loggedData, task`throws, task`phases
    ensures ok ==> task.phases == old(task.phases) + [OrphanCleanup, ActivityMigration, LibraryStats]
    ensures Advanced(old(task.phases), task.phases, [OrphanCleanup, ActivityMigration, LibraryStats])
    ensures ok ==> Settled(store)
    ensures Step(old(task.throws), task.throws, task.calls, ok)
    ensures ok ==> task.loggedData == old(task.loggedData)
    ensures !ok ==> task.loggedData == old(task.loggedData) + [ErrorLine(task.calls[|task.calls| - 1])]
  {
    ghost var t := cleanup(store.Snapshot());
    task.phases := task.phases + [OrphanCleanup];
    ok := RemoveOrphanedData(task, store, cleanup);
    if ok {
      CleanupSettles(t);
      assert CascadeSettled(store.items, store.seasons, store.episodes);
      task.phases := task.phases + [ActivityMigration];
      ghost var a0 := store.activity;
      MigrateArchivedActivity(store);
      MigrationSettles(a0, store.activity, store.items, store.episodes);
      task.phases := task.phases + [LibraryStats];
    }
  }

  lemma {:induction false} LibraryPhasesPrefix(libraries: seq<RemoteLibrary>, done: nat)
    requires done <= |libraries|
    ensures LibraryPhases(libraries, done) <= LibraryPhases(libraries, |libraries|)
    decreases |libraries| - done
  {
    if done < |libraries| {
      LibraryPhasesPrefix(libraries, done + 1);
    }
  }

  /** The log ends with the three counter lines of non-negative totals. */
  predicate EndsWithCounts(log: seq<LogLine>, t: Totals)
  {
    NonNegative(t) && |log| >= 3 && log[|log| - 3..] == CountLines(t)
  }

  /** The media sync followed by the three counter lines. */
  method MediaPhase(task: SyncTask, store: Store, included: seq<RemoteLibrary>, pagesOf: Id -> seq<seq<RemoteItem>>)
    returns (ok: bool, t: Totals, f: Fetched)
    modifies task`calls, task`loggedData, task`results, task`throws, task`phases, store`items, store`seasons, store`episodes, store`itemInfo
    ensures ok ==> task.phases == old(task.phases) + LibraryPhases(included, |included|)
    ensures Advanced(old(task.phases), task.phases, LibraryPhases(included, |included|))
    ensures Step(old(task.throws), task.throws, task.calls, ok)
    ensures !ok ==> EndsWithError(task.loggedData, task.calls)
    ensures ok ==> EndsWithCounts(task.loggedData, t)
    ensures FailedSince(old(task.results), task.results)
    ensures ok ==> f == AllFetched(included, pagesOf, |included|)
  {
    var done;
    ok, done, t, f := SyncMedia(task, store, included, pagesOf);
    LibraryPhasesPrefix(included, done);
    if ok {
      task.loggedData := task.loggedData + CountLines(t);
    }
  }

  /** The media sync, the archiving and the cleanup, on the libraries that are not excluded. */
  method SyncCatalog(task: SyncTask, store: Store, included: seq<RemoteLibrary>, pagesOf: Id -> seq<seq<RemoteItem>>,
                     cleanup: Tables -> Tables) returns (ok: bool, t: Totals, f: Fetched)
    requires task.taskName == FullSync
    modifies store, task`calls, task`loggedData, task`results, task`throws, task`phases
    ensures Advanced(old(task.phases), task.phases, CatalogPhases(included))
    ensures ok ==> task.phases == old(task.phases) + CatalogPhases(included)
    ensures Step(old(task.throws), task.throws, task.calls, ok)
    ensures !ok ==> EndsWithError(task.loggedData, task.calls)
    ensures FailedSince(old(task.results), task.results)
    ensures ok ==> Settled(store)
    ensures ok ==> EndsWithCounts(task.loggedData, t)
    ensures ok ==> f == AllFetched(included, pagesOf, |included|)
  {
    ghost var phases0 := task.phases;
    ghost var media := LibraryPhases(included, |included|);
    ghost var archive: seq<Phase> := [ItemArchive, SeasonEpisodeArchive];
    ghost var clean: seq<Phase> := [OrphanCleanup, ActivityMigration, LibraryStats];
    assert CatalogPhases(included) == media + (archive + clean);
    ok, t, f := MediaPhase(task, store, included, pagesOf);
    if !ok {
      AdvancedPartial(phases0, task.phases, media, archive + clean);
      return;
    }
    ghost var phases1 := task.phases;
    if task.taskName == FullSync {
      ok := ArchivePhase(task, store, f);
      if !ok {
        AdvancedPartial(phases1, task.phases, archive, clean);
        AdvancedWithin(phases0, media, task.phases, archive + clean);
        return;
      }
    }
    ghost var phases2 := task.phases;
    ok := CleanupPhase(task, store, cleanup);
    AdvancedWithin(phases1, archive, task.phases, clean);
    AdvancedWithin(phases0, media, task.phases, archive + clean);
  }

  /** The user sync, the empty-server check and the library folders. */
  method SyncDirectory(task: SyncTask, store: Store, server: Server, excluded: seq<Id>) returns (ok: bool, empty: bool)
    modifies task`calls, task`loggedData, task`throws, task`phases, store`users, store`activity, store`libraries, store`items
    ensures Advanced(old(task.phases), task.phases, [UserSync, LibrarySync])
    ensures ok && empty ==> |server.libraries| == 0 && task.phases == old(task.phases) + [UserSync]
    ensures ok && empty ==> task.loggedData == old(task.loggedData) && task.results == old(task.results)
    ensures ok && |server.libraries| == 0 ==> empty
    ensures ok && !empty ==> task.phases == old(task.phases) + [UserSync, LibrarySync]
    ensures Step(old(task.throws), task.throws, task.calls, ok)
    ensures !ok ==> EndsWithError(task.loggedData, task.calls)
  {
    empty := false;
    task.phases := task.phases + [UserSync];
    ok := SyncUserData(task, store, server.users);
    if !ok {
      return;
    }
    if |server.libraries| == 0 {
      empty := true;
      return;
    }
    task.phases := task.phases + [LibrarySync];
    ok := SyncLibraryFolders(task, store, Included(server.libraries, excluded), ExistingExcluded(server.libraries, excluded));
  }

  /** The body of the run's `try` after the configuration check. `empty` reports a server with no
      library, on which the run stops after the user sync. */
  method SyncBody(task: SyncTask, store: Store, excluded: seq<Id>, server: Server, cleanup: Tables -> Tables)
    returns (ok: bool, empty: bool, t: Totals, f: Fetched)
    requires task.taskName == FullSync
    modifies store, task`calls, task`loggedData, task`results, task`throws, task`phases
    ensures var included := Included(server.libraries, excluded);
            Advanced(old(task.phases), task.phases, FullPhases(included))
    ensures Step(old(task.throws), task.throws, task.calls, ok)
    ensures !ok ==> EndsWithError(task.loggedData, task.calls)
    ensures FailedSince(old(task.results), task.results)
    ensures ok && empty ==> |server.libraries| == 0 && task.phases == old(task.phases) + [UserSync]
    ensures ok && empty ==> task.loggedData == old(task.loggedData) && task.results == old(task.results)
    ensures ok && |server.libraries| == 0 ==> empty
    ensures ok && !empty ==> task.phases == old(task.phases) + FullPhases(Included(server.libraries, excluded))
    ensures ok && !empty ==> Settled(store)
    ensures ok && !empty ==> EndsWithCounts(task.loggedData, t)
    ensures ok && !empty ==> f == AllFetched(Included(server.libraries, excluded), server.pages, |Included(server.libraries, excluded)|)
  {
    t, f, empty := NoTotals, Fetched([], [], []), false;
    var included := Included(server.libraries, excluded);
    ghost var phases0 := task.phases;
    ok, empty := SyncDirectory(task, store, server, excluded);
    if !ok || empty {
      AdvancedPartial(phases0, task.phases, [UserSync, LibrarySync], CatalogPhases(included));
      return;
    }
    ok, t, f := SyncCatalog(task, store, included, server.pages, cleanup);
    AdvancedWithin(phases0, [UserSync, LibrarySync], task.phases, CatalogPhases(included));
  }

  /** How a full sync ends: at the configuration check, on a server without libraries, in the
      `catch` after a thrown error, or after every phase. */
  datatype RunEnd = ConfigFailed | NoLibraries | Caught | Finished

  const NoLibrariesLine := Message("Error: No Libararies found to sync.")

  /** The end of the run: the `catch` on a thrown error, the early return on a server without
      libraries, or the success report. */
  method CloseRun(task: SyncTask, ok: bool, empty: bool) returns (end: RunEnd)
    requires !ok ==> LastThrew(task.calls)
    modifies task`loggedData, task`results, task`progress
    ensures end == if !ok then Caught else if empty then NoLibraries else Finished
    ensures !ok ==> task.loggedData == old(task.loggedData) + [Halted(ThrownError(task.calls[|task.calls| - 1]))]
    ensures ok && empty ==> task.loggedData == old(task.loggedData) + [NoLibrariesLine]
    ensures ok && !empty ==> task.loggedData == old(task.loggedData)
    ensures task.results == old(task.results) + [if end == Finished then Success else Failed]
    ensures task.progress == old(task.progress) + [if end == Caught then ErrorMsg else SuccessMsg]
  {
    if !ok {
      task.loggedData := task.loggedData + [Halted(ThrownError(task.calls[|task.calls| - 1]))];
      task.results := task.results + [Failed];
      task.progress := task.progress + [ErrorMsg];
      end := Caught;
    } else if empty {
      task.loggedData := task.loggedData + [NoLibrariesLine];
      task.results := task.results + [Failed];
      task.progress := task.progress + [SuccessMsg];
      end := NoLibraries;
    } else {
      task.results := task.results + [Success];
      task.progress := task.progress + [SuccessMsg];
      end := Finished;
    }
  }

  /** The `catch` line follows the line the throwing wrapper logged. */
  lemma HaltedAfterError(log: seq<LogLine>, after: seq<LogLine>, calls: seq<BulkCall>)
    requires EndsWithError(log, calls) && after == log + [Halted(ThrownError(calls[|calls| - 1]))]
    ensures |after| >= 2 && after[|after| - 2..] == [ErrorLine(calls[|calls| - 1]), Halted(ThrownError(calls[|calls| - 1]))]
  {
  }

  /** The run after a configuration without error, from the state the run starts in. */
  method RunWithSettings(task: SyncTask, store: Store, excluded: seq<Id>, server: Server, cleanup: Tables -> Tables)
    returns (end: RunEnd, t: Totals, f: Fetched)
    requires task.taskName == FullSync && task.throws == 0
    requires task.results == [Running] && task.progress == [StartMsg] && task.loggedData == [] && task.phases == []
    modifies store, task`calls, task`loggedData, task`results, task`throws, task`phases, task`progress
    ensures end != ConfigFailed
    ensures |task.results| >= 2 && task.results[0] == Running && FailedSince([Running], task.results[..|task.results| - 1])
    ensures task.results[|task.results| - 1] == if end == Finished then Success else Failed
    ensures task.progress == [StartMsg, if end == Caught then ErrorMsg else SuccessMsg]
    ensures end == Caught <==> task.throws == 1
    ensures end != Caught ==> task.throws == 0
    ensures end == Caught ==> && LastThrew(task.calls) && |task.loggedData| >= 2
                              && task.loggedData[|task.loggedData| - 2..]
                                 == [ErrorLine(task.calls[|task.calls| - 1]), Halted(ThrownError(task.calls[|task.calls| - 1]))]
    ensures end == NoLibraries ==> && |server.libraries| == 0 && task.phases == [UserSync]
                                   && task.loggedData == [NoLibrariesLine] && task.results == [Running, Failed]
    ensures |server.libraries| == 0 ==> end in {NoLibraries, Caught}
    ensures Advanced([], task.phases, FullPhases(Included(server.libraries, excluded)))
    ensures end == Finished ==> task.phases == FullPhases(Included(server.libraries, excluded))
    ensures end == Finished ==> Settled(store)
    ensures end == Finished ==> EndsWithCounts(task.loggedData, t)
    ensures end == Finished ==> var included := Included(server.libraries, excluded);
                                f == AllFetched(included, server.pages, |included|)
  {
    var ok, empty;
    ok, empty, t, f := SyncBody(task, store, excluded, server, cleanup);
    ghost var log := task.loggedData;
    ghost var results := task.results;
    end := CloseRun(task, ok, empty);
    assert task.results[..|task.results| - 1] == results;
    if !ok {
      HaltedAfterError(log, task.loggedData, task.calls);
    } else if !empty {
      assert task.loggedData == log;
    }
  }

  /** `fullSync`: a new run named FULL_SYNC whose bulk calls are answered by `script`; the orphan
      cleanup procedure is `cleanup`. */
  method RunFullSync(store: Store, config: Config, server: Server, script: seq<Outcome>, cleanup: Tables -> Tables)
    returns (task: SyncTask, end: RunEnd, t: Totals, f: Fetched)
    modifies store
    ensures fresh(task) && task.taskName == FullSync && task.script == script
    ensures end == ConfigFailed <==> config.ConfigError?
    ensures config.ConfigError? ==> && task.loggedData == [Message(config.message)] && task.calls == []
                                     && task.phases == [] && task.results == [Running, Failed]
                                     && task.progress == [StartMsg] && unchanged(store)
    ensures config.Settings? ==> task.progress == [StartMsg, if end == Caught then ErrorMsg else SuccessMsg]
    ensures |task.results| >= 2 && task.results[0] == Running && FailedSince([Running], task.results[..|task.results| - 1])
    ensures task.results[|task.results| - 1] == if end == Finished then Success else Failed
    ensures end == Caught <==> task.throws == 1
    ensures end != Caught ==> task.throws == 0
    ensures end == Caught ==> && LastThrew(task.calls) && |task.loggedData| >= 2
                              && task.loggedData[|task.loggedData| - 2..]
                                 == [ErrorLine(task.calls[|task.calls| - 1]), Halted(ThrownError(task.calls[|task.calls| - 1]))]
    ensures end == NoLibraries ==> && |server.libraries| == 0 && task.phases == [UserSync]
                                   && task.loggedData == [NoLibrariesLine] && task.results == [Running, Failed]
    ensures config.Settings? && |server.libraries| == 0 ==> end in {NoLibraries, Caught}
    ensures config.Settings? ==> Advanced([], task.phases, FullPhases(Included(server.libraries, config.excludedLibraries)))
    ensures end == Finished ==> task.phases == FullPhases(Included(server.libraries, config.excludedLibraries))
    ensures end == Finished ==> Settled(store)
    ensures end == Finished ==> EndsWithCounts(task.loggedData, t)
    ensures end == Finished ==> var included := Included(server.libraries, config.excludedLibraries);
                                f == AllFetched(included, server.pages, |included|)
  {
    task := new SyncTask(FullSync, script);
    task.progress := [StartMsg];
    task.results := [Running];
    if config.ConfigError? {
      t, f := NoTotals, Fetched([], [], []);
      task.loggedData := task.loggedData + [Message(config.message)];
      task.results := task.results + [Failed];
      end := ConfigFailed;
      return;
    }
    end, t, f := RunWithSettings(task, store, config.excludedLibraries, server, cleanup);
  }
}
