/** Orphan cleanup (`removeOrphanedData` of backend/routes/sync.js): the storage-side procedure
    `jd_remove_orphaned_data`, whose body is not part of this model and is taken as a parameter,
    followed by the archive cascade from archived series and seasons and the removal of active
    episodes without a season. */
module Orphans {
  import opened Wrappers
  import opened Catalog
  import opened SyncRun

  /** The ids of the archived series among the items. */
  function ArchivedSeries(items: map<Id, ItemRow>): set<Id>
  {
    set id | id in items && items[id].archived && items[id].itemType == Series
  }

  /** The ids of the archived seasons. */
  function ArchivedSeasonIds(seasons: map<Id, SeasonRow>): set<Id>
  {
    set id | id in seasons && seasons[id].archived
  }

  function ArchiveSeasonsOfSeries(m: map<Id, SeasonRow>, series: set<Id>): map<Id, SeasonRow>
  {
    map id | id in m :: if m[id].seriesId in series then m[id].(archived := true) else m[id]
  }

  function ArchiveEpisodesOfSeries(m: map<Id, EpisodeRow>, series: set<Id>): map<Id, EpisodeRow>
  {
    map id | id in m :: if m[id].seriesId in series then m[id].(archived := true) else m[id]
  }

  function ArchiveEpisodesOfSeasons(m: map<Id, EpisodeRow>, seasons: set<Id>): map<Id, EpisodeRow>
  {
    map id | id in m :: if m[id].seasonId.Some? && m[id].seasonId.value in seasons then m[id].(archived := true) else m[id]
  }

  /** The `DELETE` of the active episodes whose `SeasonId` is null. */
  function DropUnseasoned(m: map<Id, EpisodeRow>): map<Id, EpisodeRow>
  {
    map id | id in m && (m[id].seasonId.Some? || m[id].archived) :: m[id]
  }

  /** The tables after the first `done` of the three cascade updates, starting from `t`; the
      archived series and seasons are those of `t`, read before the first update. */
  function CascadeStage(t: Tables, done: nat): Tables
  {
    var series := ArchivedSeries(t.items);
    var t1 := if done >= 1 then t.(seasons := ArchiveSeasonsOfSeries(t.seasons, series)) else t;
    var t2 := if done >= 2 then t1.(episodes := ArchiveEpisodesOfSeries(t1.episodes, series)) else t1;
    if done >= 3 then t2.(episodes := ArchiveEpisodesOfSeasons(t2.episodes, ArchivedSeasonIds(t.seasons))) else t2
  }

  /** The tables after a cleanup whose three updates succeeded. */
  function OrphansAfter(t: Tables): Tables
  {
    var c := CascadeStage(t, 3);
    c.(episodes := DropUnseasoned(c.episodes))
  }

  /** The k-th cascade update of a cleanup starting from `t`, answered `o`. */
  function CascadeCall(t: Tables, k: nat, o: Outcome): BulkCall
  {
    BulkCall(if k == 0 then SeasonsTable else EpisodesTable, UpdateField,
             if k < 2 then |ArchivedSeries(t.items)| else |ArchivedSeasonIds(t.seasons)|, o, true)
  }

  /** The first `k` cascade updates of a cleanup starting from `t`, the first of them being the
      run's call number `from`. */
  function CascadeCalls(t: Tables, script: seq<Outcome>, from: nat, k: nat): seq<BulkCall>
  {
    if k == 0 then [] else CascadeCalls(t, script, from, k - 1) + [CascadeCall(t, k - 1, AnswerAt(script, from + k - 1))]
  }

  /** After the cascade: seasons and episodes of an archived series are archived, episodes of a
      season archived before the cascade are archived, and no active episode lacks a season. */
  lemma OrphanCascade(t: Tables)
    ensures var r := OrphansAfter(t);
            var series := ArchivedSeries(t.items);
            && (forall id :: id in r.seasons && r.seasons[id].seriesId in series ==> r.seasons[id].archived)
            && (forall id :: id in r.episodes && r.episodes[id].seriesId in series ==> r.episodes[id].archived)
            && (forall id :: id in r.episodes && r.episodes[id].seasonId.Some? ==>
                  (r.episodes[id].seasonId.value in ArchivedSeasonIds(t.seasons) ==> r.episodes[id].archived))
            && (forall id :: id in r.episodes && !r.episodes[id].archived ==> r.episodes[id].seasonId.Some?)
  {
  }

  /** The cascade removes no season, un-archives nothing, changes no other column, and leaves the
      other tables alone. */
  lemma CascadeKeepsSeasons(t: Tables)
    ensures var r := OrphansAfter(t);
            && r.seasons.Keys == t.seasons.Keys
            && (forall id :: id in t.seasons ==> r.seasons[id].(archived := t.seasons[id].archived) == t.seasons[id]
                                                 && (t.seasons[id].archived ==> r.seasons[id].archived))
            && r.(seasons := t.seasons, episodes := t.episodes) == t
  {
  }

  /** The only episodes the cleanup removes are the active ones without a season outside the
      archived series; the others keep every column but `archived`, which is never reset. */
  lemma CascadeRemovesOnlyUnseasoned(t: Tables)
    ensures var r := OrphansAfter(t);
            && r.episodes.Keys <= t.episodes.Keys
            && (forall id :: id in t.episodes ==>
                  (id !in r.episodes <==> t.episodes[id].seasonId.None? && !t.episodes[id].archived
                                          && t.episodes[id].seriesId !in ArchivedSeries(t.items)))
            && (forall id :: id in r.episodes ==> r.episodes[id].(archived := t.episodes[id].archived) == t.episodes[id]
                                                  && (t.episodes[id].archived ==> r.episodes[id].archived))
  {
  }

  /** One cascade update through the throwing wrapper: `update` is applied to the seasons or the
      episodes only when the gateway accepts it. */
  method CascadeUpdate(task: SyncTask, store: Store, k: nat, ghost t: Tables, series: set<Id>, gone: set<Id>) returns (ok: bool)
    requires k < 3 && series == ArchivedSeries(t.items) && gone == ArchivedSeasonIds(t.seasons)
    requires store.seasons == CascadeStage(t, k).seasons && store.episodes == CascadeStage(t, k).episodes
    modifies store`seasons, store`episodes, task`calls, task`loggedData, task`throws
    ensures ok <==> AnswerAt(task.script, |old(task.calls)|).SUCCESS?
    ensures task.calls == old(task.calls) + [CascadeCall(t, k, AnswerAt(task.script, |old(task.calls)|))]
    ensures ok ==> store.seasons == CascadeStage(t, k + 1).seasons && store.episodes == CascadeStage(t, k + 1).episodes
    ensures !ok ==> store.seasons == old(store.seasons) && store.episodes == old(store.episodes)
    ensures Step(old(task.throws), task.throws, task.calls, ok)
    ensures ok ==> task.loggedData == old(task.loggedData)
    ensures !ok ==> task.loggedData == old(task.loggedData) + [ErrorLine(task.calls[|task.calls| - 1])]
  {
    ok := UpdateSingleFieldOnDB(task, if k == 0 then SeasonsTable else EpisodesTable, if k < 2 then |series| else |gone|);
    if ok {
      if k == 0 {
        store.seasons := ArchiveSeasonsOfSeries(store.seasons, series);
      } else if k == 1 {
        store.episodes := ArchiveEpisodesOfSeries(store.episodes, series);
      } else {
        store.episodes := ArchiveEpisodesOfSeasons(store.episodes, gone);
      }
    }
  }

  /** The three cascade updates of `removeOrphanedData` and the closing `DELETE`, starting from
      the tables `t` the storage procedure left; `made` is the number of updates submitted. */
  method Cascade(task: SyncTask, store: Store, ghost t: Tables) returns (ok: bool, made: nat)
    requires store.Snapshot() == t
    modifies store`seasons, store`episodes, task`calls, task`loggedData, task`throws
    ensures 1 <= made <= 3 && (ok ==> made == 3)
    ensures task.calls == old(task.calls) + CascadeCalls(t, task.script, |old(task.calls)|, made)
    ensures AllAccepted(if ok then task.calls else task.calls[..|task.calls| - 1], |old(task.calls)|)
    ensures ok ==> store.seasons == OrphansAfter(t).seasons && store.episodes == OrphansAfter(t).episodes
    ensures !ok ==> store.seasons == CascadeStage(t, made - 1).seasons && store.episodes == CascadeStage(t, made - 1).episodes
    ensures Step(old(task.throws), task.throws, task.calls, ok)
    ensures ok ==> task.loggedData == old(task.loggedData)
    ensures !ok ==> task.loggedData == old(task.loggedData) + [ErrorLine(task.calls[|task.calls| - 1])]
  {
    var series := ArchivedSeries(store.items);
    var gone := ArchivedSeasonIds(store.seasons);
    ghost var n := |task.calls|;
    ghost var calls0 := task.calls;
    made := 1;
    ok := CascadeUpdate(task, store, 0, t, series, gone);
    assert task.calls == calls0 + CascadeCalls(t, task.script, n, 1);
    if ok {
      made := 2;
      ok := CascadeUpdate(task, store, 1, t, series, gone);
      assert task.calls == calls0 + CascadeCalls(t, task.script, n, 1) + [CascadeCall(t, 1, AnswerAt(task.script, n + 1))];
      assert task.calls == calls0 + CascadeCalls(t, task.script, n, 2);
      if ok {
        made := 3;
        ghost var calls2 := task.calls;
        ok := CascadeUpdate(task, store, 2, t, series, gone);
        assert task.calls == calls2 + [CascadeCall(t, 2, AnswerAt(task.script, n + 2))];
        assert task.calls == calls0 + CascadeCalls(t, task.script, n, 3);
        if ok {
          store.episodes := DropUnseasoned(store.episodes);
        } else {
          assert task.calls[..|task.calls| - 1] == calls2;
        }
      } else {
        assert task.calls[..|task.calls| - 1] == calls0 + CascadeCalls(t, task.script, n, 1);
      }
    } else {
      assert task.calls[..|task.calls| - 1] == calls0;
    }
  }

  /** `removeOrphanedData()`, with the storage procedure given as `cleanup`. The three updates go
      through the throwing wrapper; the closing `DELETE` is a direct query. */
  method RemoveOrphanedData(task: SyncTask, store: Store, cleanup: Tables -> Tables) returns (ok: bool)
    modifies store, task`calls, task`loggedData, task`throws
    ensures var t := cleanup(old(store.Snapshot()));
            exists made: nat :: 1 <= made <= 3 && (ok ==> made == 3)
              && task.calls == old(task.calls) + CascadeCalls(t, task.script, |old(task.calls)|, made)
              && store.Snapshot() == if ok then OrphansAfter(t) else CascadeStage(t, made - 1)
    ensures AllAccepted(if ok then task.calls else task.calls[..|task.calls| - 1], |old(task.calls)|)
    ensures Step(old(task.throws), task.throws, task.calls, ok)
    ensures ok ==> task.loggedData == old(task.loggedData)
    ensures !ok ==> task.loggedData == old(task.loggedData) + [ErrorLine(task.calls[|task.calls| - 1])]
  {
    var t := cleanup(store.Snapshot());
    store.Restore(t);
    var made;
    ok, made := Cascade(task, store, t);
  }
}
