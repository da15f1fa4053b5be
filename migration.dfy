/** Name-based migration of playback history (`migrateArchivedActivty` of backend/routes/sync.js):
    activity rows that point at an item or episode with no active row are repointed at an active
    row of the same name. Both mappings are read before either rewrite runs; the order in which
    the database returns mapping rows is not specified, so the rewrites pick pairs in any order. */
module Migration {
  import opened Wrappers
  import opened Catalog

  predicate ActiveItem(items: map<Id, ItemRow>, id: Id)
  {
    id in items && !items[id].archived
  }

  predicate ActiveEpisode(episodes: map<Id, EpisodeRow>, id: Id)
  {
    id in episodes && !episodes[id].archived
  }

  // ---- The movie mapping.

  /** Activity row `a` joins stored item `i` in the movie query. */
  predicate MovieMatch(a: Activity, items: map<Id, ItemRow>, i: Id)
    requires i in items
  {
    && a.episodeId.None?
    && a.nowPlayingItemName == items[i].name
    && a.nowPlayingItemId != i
    && !items[i].archived
    && !ActiveItem(items, a.nowPlayingItemId)
  }

  /** The (old `NowPlayingItemId`, new item id) pairs the movie query returns. */
  function MovieMapping(acts: seq<Activity>, items: map<Id, ItemRow>): (r: set<(Id, Id)>)
    ensures forall p :: p in r ==> !ActiveItem(items, p.0) && ActiveItem(items, p.1)
  {
    set k, i | 0 <= k < |acts| && i in items && MovieMatch(acts[k], items, i) :: (acts[k].nowPlayingItemId, i)
  }

  /** A movie pair comes from an episode-less activity row with the old id whose name is the new
      item's name, the new item is active and differs from the old id, and no active item has the
      old id. */
  lemma MovieMappingExact(acts: seq<Activity>, items: map<Id, ItemRow>, oldId: Id, newId: Id)
    ensures (oldId, newId) in MovieMapping(acts, items)
            <==> newId in items && exists k :: 0 <= k < |acts| && acts[k].nowPlayingItemId == oldId && MovieMatch(acts[k], items, newId)
  {
    if newId in items && exists k :: 0 <= k < |acts| && acts[k].nowPlayingItemId == oldId && MovieMatch(acts[k], items, newId) {
      var k :| 0 <= k < |acts| && acts[k].nowPlayingItemId == oldId && MovieMatch(acts[k], items, newId);
      assert (acts[k].nowPlayingItemId, newId) in MovieMapping(acts, items);
    }
  }

  /** `UPDATE … SET "NowPlayingItemId" = new WHERE "NowPlayingItemId" = old`, on every row. */
  function RepointMovie(acts: seq<Activity>, oldId: Id, newId: Id): (r: seq<Activity>)
    ensures |r| == |acts|
    ensures forall k :: 0 <= k < |acts| ==>
              r[k] == if acts[k].nowPlayingItemId == oldId then acts[k].(nowPlayingItemId := newId) else acts[k]
  {
    if acts == [] then []
    else [if acts[0].nowPlayingItemId == oldId then acts[0].(nowPlayingItemId := newId) else acts[0]]
         + RepointMovie(acts[1..], oldId, newId)
  }

  /** Every row of `after` is its row of `before`, or that row repointed along a pair of `mapping`. */
  predicate MovieMoved(before: seq<Activity>, after: seq<Activity>, mapping: set<(Id, Id)>)
  {
    && |after| == |before|
    && forall k :: 0 <= k < |before| ==>
         after[k] == before[k]
         || ((before[k].nowPlayingItemId, after[k].nowPlayingItemId) in mapping
             && after[k] == before[k].(nowPlayingItemId := after[k].nowPlayingItemId))
  }

  /** No row of `acts` still points at the old id of a pair of `done`. */
  predicate MovieCleared(acts: seq<Activity>, done: set<(Id, Id)>)
  {
    forall p, k :: p in done && 0 <= k < |acts| ==> acts[k].nowPlayingItemId != p.0
  }

  /** The movie rewrite loop over `mapping`. */
  method RepointMovies(store: Store, mapping: set<(Id, Id)>)
    requires forall p, q :: p in mapping && q in mapping ==> p.1 != q.0
    modifies store`activity
    ensures MovieMoved(old(store.activity), store.activity, mapping)
    ensures MovieCleared(store.activity, mapping)
  {
    var todo := mapping;
    while todo != {}
      invariant todo <= mapping
      invariant MovieMoved(old(store.activity), store.activity, mapping)
      invariant MovieCleared(store.activity, mapping - todo)
      decreases |todo|
    {
      var p :| p in todo;
      ghost var before := store.activity;
      store.activity := RepointMovie(store.activity, p.0, p.1);
      forall k | 0 <= k < |before| && before[k].nowPlayingItemId == p.0
        ensures before[k] == old(store.activity)[k]
      {
        if before[k] != old(store.activity)[k] {
          assert false;
        }
      }
      todo := todo - {p};
    }
  }

  // ---- The episode mapping.

  /** A row of the episode query: old `EpisodeId`, new `EpisodeId`, its `SeasonId` and `SeriesId`. */
  datatype EpisodePair = EpisodePair(oldId: Id, newId: Id, seasonId: Option<Id>, seriesId: Id)

  /** Activity row `a` joins stored episode `e` in the episode query. A NULL `SeriesName` on the
      activity row matches nothing. */
  predicate EpisodeMatch(a: Activity, episodes: map<Id, EpisodeRow>, e: Id)
    requires e in episodes
  {
    && a.episodeId.Some?
    && a.nowPlayingItemName == episodes[e].name
    && a.seriesName == Some(episodes[e].seriesName)
    && a.episodeId.value != e
    && !episodes[e].archived
    && !ActiveEpisode(episodes, a.episodeId.value)
  }

  /** The rows the episode query returns. */
  function EpisodeMapping(acts: seq<Activity>, episodes: map<Id, EpisodeRow>): (r: set<EpisodePair>)
    ensures forall q :: q in r ==> !ActiveEpisode(episodes, q.oldId) && ActiveEpisode(episodes, q.newId)
                                   && q.seasonId == episodes[q.newId].seasonId && q.seriesId == episodes[q.newId].seriesId
  {
    set k, e | 0 <= k < |acts| && e in episodes && EpisodeMatch(acts[k], episodes, e)
      :: EpisodePair(acts[k].episodeId.value, e, episodes[e].seasonId, episodes[e].seriesId)
  }

  /** An episode pair comes from an activity row with the old `EpisodeId` whose item name and series
      name are the new episode's, the new episode is active, and no active episode has the old id. */
  lemma EpisodeMappingExact(acts: seq<Activity>, episodes: map<Id, EpisodeRow>, q: EpisodePair)
    ensures q in EpisodeMapping(acts, episodes)
            <==> q.newId in episodes && q.seasonId == episodes[q.newId].seasonId && q.seriesId == episodes[q.newId].seriesId
                 && exists k :: 0 <= k < |acts| && acts[k].episodeId == Some(q.oldId) && EpisodeMatch(acts[k], episodes, q.newId)
  {
    if && q.newId in episodes && q.seasonId == episodes[q.newId].seasonId && q.seriesId == episodes[q.newId].seriesId
       && exists k :: 0 <= k < |acts| && acts[k].episodeId == Some(q.oldId) && EpisodeMatch(acts[k], episodes, q.newId)
    {
      var k :| 0 <= k < |acts| && acts[k].episodeId == Some(q.oldId) && EpisodeMatch(acts[k], episodes, q.newId);
      assert EpisodePair(acts[k].episodeId.value, q.newId, episodes[q.newId].seasonId, episodes[q.newId].seriesId)
             in EpisodeMapping(acts, episodes);
    }
  }

  /** The text the update query writes into `SeasonId`: a missing season becomes the text "null". */
  function SeasonText(s: Option<Id>): Id
  {
    if s.Some? then s.value else "null"
  }

  /** The episode update applied to one row. */
  function MoveEpisode(a: Activity, q: EpisodePair): Activity
  {
    a.(episodeId := Some(q.newId), seasonId := Some(SeasonText(q.seasonId)), nowPlayingItemId := q.seriesId)
  }

  /** `UPDATE … SET "EpisodeId", "SeasonId", "NowPlayingItemId" WHERE "EpisodeId" = old`, on every row. */
  function RepointEpisode(acts: seq<Activity>, q: EpisodePair): (r: seq<Activity>)
    ensures |r| == |acts|
    ensures forall k :: 0 <= k < |acts| ==> r[k] == if acts[k].episodeId == Some(q.oldId) then MoveEpisode(acts[k], q) else acts[k]
  {
    if acts == [] then []
    else [if acts[0].episodeId == Some(q.oldId) then MoveEpisode(acts[0], q) else acts[0]]
         + RepointEpisode(acts[1..], q)
  }

  /** Row `b` is row `a` moved along a pair of `mapping`. */
  predicate MovedAlong(a: Activity, b: Activity, mapping: set<EpisodePair>)
  {
    exists q :: q in mapping && a.episodeId == Some(q.oldId) && b == MoveEpisode(a, q)
  }

  /** Every row of `after` is its row of `before`, or that row moved along a pair of `mapping`. */
  predicate EpisodeMoved(before: seq<Activity>, after: seq<Activity>, mapping: set<EpisodePair>)
  {
    && |after| == |before|
    && forall k :: 0 <= k < |before| ==> after[k] == before[k] || MovedAlong(before[k], after[k], mapping)
  }

  /** No row of `acts` still has the old `EpisodeId` of a pair of `done`. */
  predicate EpisodeCleared(acts: seq<Activity>, done: set<EpisodePair>)
  {
    forall q, k :: q in done && 0 <= k < |acts| ==> acts[k].episodeId != Some(q.oldId)
  }

  /** The episode rewrite loop over `mapping`. */
  method RepointEpisodes(store: Store, mapping: set<EpisodePair>)
    requires forall p, q :: p in mapping && q in mapping ==> p.newId != q.oldId
    modifies store`activity
    ensures EpisodeMoved(old(store.activity), store.activity, mapping)
    ensures EpisodeCleared(store.activity, mapping)
  {
    var todo := mapping;
    while todo != {}
      invariant todo <= mapping
      invariant EpisodeMoved(old(store.activity), store.activity, mapping)
      invariant EpisodeCleared(store.activity, mapping - todo)
      decreases |todo|
    {
      var q :| q in todo;
      ghost var before := store.activity;
      store.activity := RepointEpisode(store.activity, q);
      forall k | 0 <= k < |before| && before[k].episodeId == Some(q.oldId)
        ensures before[k] == old(store.activity)[k]
      {
        if before[k] != old(store.activity)[k] {
          assert false;
        }
      }
      forall k | 0 <= k < |before|
        ensures store.activity[k] == old(store.activity)[k] || MovedAlong(old(store.activity)[k], store.activity[k], mapping)
      {
        if before[k].episodeId == Some(q.oldId) {
          assert store.activity[k] == MoveEpisode(old(store.activity)[k], q);
        }
      }
      todo := todo - {q};
    }
  }

  // ---- The whole migration.

  /** `migrateArchivedActivty()`: both mappings are read from the tables as they are on entry, then
      every movie pair and every episode pair is applied. */
  method MigrateArchivedActivity(store: Store)
    modifies store`activity
    ensures Migrated(old(store.activity), store.activity, store.items, store.episodes)
  {
    ghost var a0 := store.activity;
    var movies := MovieMapping(store.activity, store.items);
    var episodes := EpisodeMapping(store.activity, store.episodes);
    RepointMovies(store, movies);
    ghost var a1 := store.activity;
    assert MovieStage(a0, a1, store.items);
    RepointEpisodes(store, episodes);
  }

  /** The activity after the movie rewrites of a migration starting from `a0`. */
  ghost predicate MovieStage(a0: seq<Activity>, a1: seq<Activity>, items: map<Id, ItemRow>)
  {
    MovieMoved(a0, a1, MovieMapping(a0, items)) && MovieCleared(a1, MovieMapping(a0, items))
  }

  /** The activity `a2` a migration from `a0` may end with, given the item and episode tables. */
  ghost predicate Migrated(a0: seq<Activity>, a2: seq<Activity>, items: map<Id, ItemRow>, episodes: map<Id, EpisodeRow>)
  {
    exists a1 :: && MovieStage(a0, a1, items)
                 && EpisodeMoved(a1, a2, EpisodeMapping(a0, episodes))
                 && EpisodeCleared(a2, EpisodeMapping(a0, episodes))
  }

  /** What a migration does to each row. An episode-less row is kept, or only its
      `NowPlayingItemId` changes, from an id with no active item to an active item the movie
      query paired it with. A row with an `EpisodeId` is kept, has only its `NowPlayingItemId`
      changed that way (the movie update matches on `NowPlayingItemId` alone), or is moved along an
      episode pair. Afterwards no episode-less row keeps the old id of a movie pair and no row keeps
      the old id of an episode pair. */
  lemma MigrationEffect(a0: seq<Activity>, a2: seq<Activity>, items: map<Id, ItemRow>, episodes: map<Id, EpisodeRow>)
    requires Migrated(a0, a2, items, episodes)
    ensures |a2| == |a0|
    ensures forall k :: 0 <= k < |a0| ==>
              || a2[k] == a0[k]
              || (&& a2[k] == a0[k].(nowPlayingItemId := a2[k].nowPlayingItemId)
                  && (a0[k].nowPlayingItemId, a2[k].nowPlayingItemId) in MovieMapping(a0, items)
                  && !ActiveItem(items, a0[k].nowPlayingItemId) && ActiveItem(items, a2[k].nowPlayingItemId))
              || (a0[k].episodeId.Some? && MovedAlong(a0[k], a2[k], EpisodeMapping(a0, episodes)))
    ensures forall p, k :: p in MovieMapping(a0, items) && 0 <= k < |a2| && a2[k].episodeId.None? ==> a2[k].nowPlayingItemId != p.0
    ensures EpisodeCleared(a2, EpisodeMapping(a0, episodes))
  {
    var a1: seq<Activity> :| MovieStage(a0, a1, items) && EpisodeMoved(a1, a2, EpisodeMapping(a0, episodes)) && EpisodeCleared(a2, EpisodeMapping(a0, episodes));
    var em := EpisodeMapping(a0, episodes);
    forall k | 0 <= k < |a0| && a2[k] != a1[k]
      ensures a0[k].episodeId.Some? && MovedAlong(a0[k], a2[k], em)
    {
      var q :| q in em && a1[k].episodeId == Some(q.oldId) && a2[k] == MoveEpisode(a1[k], q);
      assert a1[k].episodeId == a0[k].episodeId;
      assert MoveEpisode(a1[k], q) == MoveEpisode(a0[k], q);
    }
  }

  /** The mappings of the activity a migration leaves behind are empty: as long as the item and
      episode tables are unchanged, a second migration finds nothing to repoint. */
  lemma MigrationSettles(a0: seq<Activity>, a2: seq<Activity>, items: map<Id, ItemRow>, episodes: map<Id, EpisodeRow>)
    requires Migrated(a0, a2, items, episodes)
    ensures MovieMapping(a2, items) == {}
    ensures EpisodeMapping(a2, episodes) == {}
  {
    var a1: seq<Activity> :| MovieStage(a0, a1, items) && EpisodeMoved(a1, a2, EpisodeMapping(a0, episodes)) && EpisodeCleared(a2, EpisodeMapping(a0, episodes));
    var mm := MovieMapping(a0, items);
    var em := EpisodeMapping(a0, episodes);
    forall k, i | 0 <= k < |a2| && i in items
      ensures !MovieMatch(a2[k], items, i)
    {
      if MovieMatch(a0[k], items, i) {
        assert (a0[k].nowPlayingItemId, i) in mm;
      }
    }
    forall k, e | 0 <= k < |a2| && e in episodes
      ensures !EpisodeMatch(a2[k], episodes, e)
    {
      assert a1[k].episodeId == a0[k].episodeId;
      if EpisodeMatch(a0[k], episodes, e) {
        assert EpisodePair(a0[k].episodeId.value, e, episodes[e].seasonId, episodes[e].seriesId) in em;
      }
    }
  }

  /** A migration whose mappings are empty leaves every row as it was. */
  lemma EmptyMigrationIsIdle(a0: seq<Activity>, a2: seq<Activity>, items: map<Id, ItemRow>, episodes: map<Id, EpisodeRow>)
    requires Migrated(a0, a2, items, episodes)
    requires MovieMapping(a0, items) == {} && EpisodeMapping(a0, episodes) == {}
    ensures a2 == a0
  {
    var a1: seq<Activity> :| MovieStage(a0, a1, items) && EpisodeMoved(a1, a2, EpisodeMapping(a0, episodes)) && EpisodeCleared(a2, EpisodeMapping(a0, episodes));
    assert a1 == a0;
  }

  /** A second migration over unchanged item and episode tables changes nothing. */
  lemma SecondMigrationIsIdle(a0: seq<Activity>, a2: seq<Activity>, a3: seq<Activity>, items: map<Id, ItemRow>, episodes: map<Id, EpisodeRow>)
    requires Migrated(a0, a2, items, episodes)
    requires Migrated(a2, a3, items, episodes)
    ensures a3 == a2
  {
    MigrationSettles(a0, a2, items, episodes);
    EmptyMigrationIsIdle(a2, a3, items, episodes);
  }
}
