/** Archived-only library purge (`purgeLibraryItems` of backend/routes/api.js): the archived items
    of a library are removed together with the archived seasons and episodes of those items and,
    on request, the playback rows that refer to them. */
module ApiPurge {
  import opened Wrappers
  import opened Catalog

  /** `select * from jf_library_items where "ParentId" = id and archived = true`. */
  function PurgeTargets(items: map<Id, ItemRow>, library: Id): set<Id>
  {
    set k | k in items && items[k].parentId == library && items[k].archived
  }

  /** The archived seasons whose `SeriesId` is one of `series`. */
  function ArchivedSeasonsOf(seasons: map<Id, SeasonRow>, series: set<Id>): set<Id>
  {
    set k | k in seasons && seasons[k].seriesId in series && seasons[k].archived
  }

  /** The archived episodes whose `SeriesId` is one of `series`. */
  function ArchivedEpisodesOf(episodes: map<Id, EpisodeRow>, series: set<Id>): set<Id>
  {
    set k | k in episodes && episodes[k].seriesId in series && episodes[k].archived
  }

  /** The rows of a table whose key is not among `ids` (a `DELETE ... WHERE "Id" IN ids`). */
  function Without<V>(m: map<Id, V>, ids: set<Id>): (r: map<Id, V>)
    ensures r.Keys == m.Keys - ids
    ensures forall k :: k in r ==> r[k] == m[k]
  {
    map k | k in m && k !in ids :: m[k]
  }

  /** A playback row matched by the activity `DELETE`: its `EpisodeId` is a purged episode, its
      `SeasonId` a purged season, or its `NowPlayingItemId` one of `plays`. */
  predicate Doomed(a: Activity, episodes: set<Id>, seasons: set<Id>, plays: set<Id>)
  {
    (a.episodeId.Some? && a.episodeId.value in episodes)
    || (a.seasonId.Some? && a.seasonId.value in seasons)
    || a.nowPlayingItemId in plays
  }

  /** The playback rows the activity `DELETE` leaves, in their order. */
  function KeptActivity(rows: seq<Activity>, episodes: set<Id>, seasons: set<Id>, plays: set<Id>): (r: seq<Activity>)
    ensures forall a :: a in r <==> a in rows && !Doomed(a, episodes, seasons, plays)
  {
    if rows == [] then []
    else if Doomed(rows[0], episodes, seasons, plays) then KeptActivity(rows[1..], episodes, seasons, plays)
    else [rows[0]] + KeptActivity(rows[1..], episodes, seasons, plays)
  }

  /** The activity `DELETE` as written: besides purged episodes and seasons it matches
      `NowPlayingItemId` against the library id only. */
  function PurgedActivityAsWritten(rows: seq<Activity>, library: Id, episodes: set<Id>, seasons: set<Id>): seq<Activity>
  {
    KeptActivity(rows, episodes, seasons, {library})
  }

  /** The activity `DELETE` as intended: it also matches the plays of the purged items themselves,
      which is what removes the history of a purged movie. */
  function PurgedActivity(rows: seq<Activity>, library: Id, targets: set<Id>, episodes: set<Id>, seasons: set<Id>): seq<Activity>
  {
    KeptActivity(rows, episodes, seasons, targets + {library})
  }

  /** The loop over the purge targets collects, item by item, the ids of their archived seasons
      and episodes; the targets are visited in any order. */
  method CollectChildren(seasons: map<Id, SeasonRow>, episodes: map<Id, EpisodeRow>, targets: set<Id>)
    returns (seasonIds: set<Id>, episodeIds: set<Id>)
    ensures seasonIds == ArchivedSeasonsOf(seasons, targets)
    ensures episodeIds == ArchivedEpisodesOf(episodes, targets)
  {
    seasonIds, episodeIds := {}, {};
    var todo := targets;
    while todo != {}
      invariant todo <= targets
      invariant seasonIds == ArchivedSeasonsOf(seasons, targets - todo)
      invariant episodeIds == ArchivedEpisodesOf(episodes, targets - todo)
      decreases todo
    {
      var item :| item in todo;
      seasonIds := seasonIds + ArchivedSeasonsOf(seasons, {item});
      episodeIds := episodeIds + ArchivedEpisodesOf(episodes, {item});
      todo := todo - {item};
      assert targets - todo == (targets - (todo + {item})) + {item};
    }
  }

  /** Deleting no ids leaves a table as it was, which is why the source may skip an empty bulk delete. */
  lemma WithoutNothing<V>(m: map<Id, V>, ids: set<Id>)
    requires |ids| == 0
    ensures Without(m, ids) == m
  {
  }

  /** `if (ids.length > 0) await db.deleteBulk(table, ids)`: the bulk delete is issued only for a
      non-empty list, and its outcome `deleted` is not checked. */
  method DeleteIfAny<V>(m: map<Id, V>, ids: set<Id>, deleted: bool) returns (r: map<Id, V>)
    ensures deleted ==> r == Without(m, ids)
    ensures !deleted ==> r == m
  {
    r := m;
    if |ids| > 0 {
      if deleted {
        r := Without(m, ids);
      }
    } else {
      WithoutNothing(m, ids);
    }
  }

  /** The tables after `purgeLibraryItems(library, withActivity)`, the two bulk deletes having
      answered `episodesDeleted` and `seasonsDeleted`. */
  function Purged(t: Tables, library: Id, withActivity: bool, episodesDeleted: bool, seasonsDeleted: bool): Tables
  {
    var targets := PurgeTargets(t.items, library);
    var seasonIds := ArchivedSeasonsOf(t.seasons, targets);
    var episodeIds := ArchivedEpisodesOf(t.episodes, targets);
    t.(items := Without(t.items, targets),
       seasons := if seasonsDeleted then Without(t.seasons, seasonIds) else t.seasons,
       episodes := if episodesDeleted then Without(t.episodes, episodeIds) else t.episodes,
       activity := if withActivity then PurgedActivityAsWritten(t.activity, library, episodeIds, seasonIds) else t.activity)
  }

  /** `purgeLibraryItems(library, withActivity)`. The two bulk deletes report their outcome
      instead of throwing and the purge goes on regardless; `episodesDeleted`/`seasonsDeleted`
      are those outcomes. The activity delete is the one written in the route, which matches
      `NowPlayingItemId` against the library id only (see `PurgedActivityAsWritten`). */
  method PurgeLibraryItems(store: Store, library: Id, withActivity: bool, episodesDeleted: bool, seasonsDeleted: bool)
    modifies store`items, store`seasons, store`episodes, store`activity
    ensures store.Snapshot() == Purged(old(store.Snapshot()), library, withActivity, episodesDeleted, seasonsDeleted)
  {
    ghost var t := store.Snapshot();
    var items, seasons, episodes, activity := store.items, store.seasons, store.episodes, store.activity;
    var targets := PurgeTargets(items, library);
    var seasonIds, episodeIds := CollectChildren(seasons, episodes, targets);
    episodes := DeleteIfAny(episodes, episodeIds, episodesDeleted);
    seasons := DeleteIfAny(seasons, seasonIds, seasonsDeleted);
    items := Without(items, targets);
    if withActivity {
      activity := PurgedActivityAsWritten(activity, library, episodeIds, seasonIds);
    }
    store.items, store.seasons, store.episodes, store.activity := items, seasons, episodes, activity;
  }

  /** The purge removes only archived rows of the library, whatever the bulk deletes answer: an
      active item, season or episode, or an item of another library, keeps its row, every removed
      season or episode belonged to a purged item, and the history is touched only on request;
      when it is, exactly the plays of the library id and of the purged seasons and episodes go. */
  lemma PurgeKeepsActiveRows(t: Tables, library: Id, withActivity: bool, episodesDeleted: bool, seasonsDeleted: bool)
    ensures var r := Purged(t, library, withActivity, episodesDeleted, seasonsDeleted);
            var targets := PurgeTargets(t.items, library);
            && r.items.Keys <= t.items.Keys && r.seasons.Keys <= t.seasons.Keys && r.episodes.Keys <= t.episodes.Keys
            && (forall k :: k in t.items && (!t.items[k].archived || t.items[k].parentId != library) ==> k in r.items && r.items[k] == t.items[k])
            && (forall k :: k in t.items && k !in r.items ==> t.items[k].archived && t.items[k].parentId == library)
            && (forall k :: k in t.seasons && !t.seasons[k].archived ==> k in r.seasons && r.seasons[k] == t.seasons[k])
            && (forall k :: k in t.seasons && k !in r.seasons ==> t.seasons[k].archived && t.seasons[k].seriesId in targets)
            && (forall k :: k in t.episodes && !t.episodes[k].archived ==> k in r.episodes && r.episodes[k] == t.episodes[k])
            && (forall k :: k in t.episodes && k !in r.episodes ==> t.episodes[k].archived && t.episodes[k].seriesId in targets)
            && (!withActivity ==> r.activity == t.activity)
            && (withActivity ==> forall a :: a in r.activity <==>
                  && a in t.activity && a.nowPlayingItemId != library
                  && (a.episodeId.Some? ==> a.episodeId.value !in ArchivedEpisodesOf(t.episodes, targets))
                  && (a.seasonId.Some? ==> a.seasonId.value !in ArchivedSeasonsOf(t.seasons, targets)))
            && r.(items := t.items, seasons := t.seasons, episodes := t.episodes, activity := t.activity) == t
  {
  }

  /** With the corrected activity delete, no remaining playback row refers to a purged item,
      episode or season, and every other row stays, in its order. */
  lemma PurgedActivityExact(rows: seq<Activity>, library: Id, targets: set<Id>, episodes: set<Id>, seasons: set<Id>)
    ensures var r := PurgedActivity(rows, library, targets, episodes, seasons);
            && (forall a :: a in r ==> (&& a.nowPlayingItemId !in targets
                                        && (a.episodeId.Some? ==> a.episodeId.value !in episodes)
                                        && (a.seasonId.Some? ==> a.seasonId.value !in seasons)))
            && (forall a :: a in rows && !Doomed(a, episodes, seasons, targets + {library}) ==> a in r)
  {
  }

  /** The activity delete as written keeps the plays of a purged movie: a movie's playback row has
      no episode or season, and its `NowPlayingItemId` is the movie, not the library. */
  lemma PurgeAsWrittenKeepsMoviePlays()
    ensures var movie := Activity("u", "user", "m1", "Movie", None, None, None, 0, 60);
            var items := map["m1" := ItemRow("Movie", "lib", Movie, true)];
            var targets := PurgeTargets(items, "lib");
            var episodes := ArchivedEpisodesOf(map[], targets);
            var seasons := ArchivedSeasonsOf(map[], targets);
            && "m1" in targets
            && PurgedActivityAsWritten([movie], "lib", episodes, seasons) == [movie]
            && PurgedActivity([movie], "lib", targets, episodes, seasons) == []
  {
    var movie := Activity("u", "user", "m1", "Movie", None, None, None, 0, 60);
    var items := map["m1" := ItemRow("Movie", "lib", Movie, true)];
    var targets := PurgeTargets(items, "lib");
    assert "m1" in targets;
    assert "m1" != "lib";
    var episodes := ArchivedEpisodesOf(map[], targets);
    var seasons := ArchivedSeasonsOf(map[], targets);
    assert episodes == {} && seasons == {};
    assert !Doomed(movie, episodes, seasons, {"lib"});
    assert Doomed(movie, episodes, seasons, targets + {"lib"});
    assert [movie][1..] == [];
    assert KeptActivity([movie], episodes, seasons, {"lib"}) == [movie] + KeptActivity([], episodes, seasons, {"lib"});
    assert KeptActivity([movie], episodes, seasons, targets + {"lib"}) == KeptActivity([], episodes, seasons, targets + {"lib"});
  }
}
