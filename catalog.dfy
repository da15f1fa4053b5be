/** The local mirror of the media server's catalog (the tables the sync engine reads and writes),
    the records the media server returns, and the record mappers between the two. */
module Catalog {
  import opened Wrappers

  type Id = string

  /** The `Type` of a media-server record. */
  datatype ItemType = Movie | Audio | Series | Season | Episode | Folder | OtherType(typeName: string)

  /** One media source (file) of a movie, audio item or episode. */
  datatype MediaSource = MediaSource(id: Id, size: int, path: string)

  /** A record listed under a library by the media server. `id` is None when the record has no `Id`.
      `seriesId`, `seriesName` and `seasonId` are only meaningful for seasons and episodes. */
  datatype RemoteItem = RemoteItem(
    id: Option<Id>, name: string, itemType: ItemType, parentId: Id,
    seriesId: Id, seriesName: string, seasonId: Option<Id>, mediaSources: seq<MediaSource>)

  datatype RemoteUser = RemoteUser(id: Id, name: string)
  datatype RemoteLibrary = RemoteLibrary(id: Id, name: string)

  // Rows of the local tables, keyed by their identity in the maps of Store.
  datatype UserRow = UserRow(name: string)
  datatype LibraryRow = LibraryRow(name: string, archived: bool)
  datatype ItemRow = ItemRow(name: string, parentId: Id, itemType: ItemType, archived: bool)
  datatype SeasonRow = SeasonRow(name: string, seriesId: Id, archived: bool)
  datatype EpisodeRow = EpisodeRow(name: string, seasonId: Option<Id>, seriesId: Id, seriesName: string, archived: bool)
  datatype InfoKind = ItemFile | EpisodeFile
  datatype InfoRow = InfoRow(kind: InfoKind, size: int, path: string)
  datatype PluginRow = PluginRow(rowId: int, itemName: string)

  /** A playback-history row. `seasonId`/`episodeId` are None for SQL NULL; `activityDateInserted`
      is a timestamp and `playbackDuration` a whole number of seconds. */
  datatype Activity = Activity(
    userId: Id, userName: string,
    nowPlayingItemId: Id, nowPlayingItemName: string,
    episodeId: Option<Id>, seasonId: Option<Id>, seriesName: Option<string>,
    activityDateInserted: int, playbackDuration: int)

  /** All tables at one instant, the value an opaque stored procedure transforms. */
  datatype Tables = Tables(
    users: map<Id, UserRow>, libraries: map<Id, LibraryRow>, items: map<Id, ItemRow>,
    seasons: map<Id, SeasonRow>, episodes: map<Id, EpisodeRow>, itemInfo: map<Id, InfoRow>,
    activity: seq<Activity>, pluginData: seq<PluginRow>)

  /** The relational store. Episodes are keyed by `EpisodeId`, item info by media-source id. */
  class Store {
    var users: map<Id, UserRow>
    var libraries: map<Id, LibraryRow>
    var items: map<Id, ItemRow>
    var seasons: map<Id, SeasonRow>
    var episodes: map<Id, EpisodeRow>
    var itemInfo: map<Id, InfoRow>
    var activity: seq<Activity>
    var pluginData: seq<PluginRow>

    constructor ()
      ensures Snapshot() == Tables(map[], map[], map[], map[], map[], map[], [], [])
    {
      users, libraries, items, seasons, episodes, itemInfo := map[], map[], map[], map[], map[], map[];
      activity, pluginData := [], [];
    }

    function Snapshot(): Tables
      reads this
    {
      Tables(users, libraries, items, seasons, episodes, itemInfo, activity, pluginData)
    }

    /** Replaces every table by the given contents (the effect of an opaque stored procedure). */
    method Restore(t: Tables)
      modifies this
      ensures Snapshot() == t
    {
      users, libraries, items, seasons, episodes, itemInfo := t.users, t.libraries, t.items, t.seasons, t.episodes, t.itemInfo;
      activity, pluginData := t.activity, t.pluginData;
    }
  }

  // ---- Record mappers. Their column lists live in files that are not part of this model;
  // ---- every mapped row starts out active (`archived` false).

  function LibraryRowOf(l: RemoteLibrary): LibraryRow { LibraryRow(l.name, false) }
  function ItemRowOf(r: RemoteItem): ItemRow { ItemRow(r.name, r.parentId, r.itemType, false) }
  function SeasonRowOf(r: RemoteItem): SeasonRow { SeasonRow(r.name, r.seriesId, false) }
  function EpisodeRowOf(r: RemoteItem): EpisodeRow { EpisodeRow(r.name, r.seasonId, r.seriesId, r.seriesName, false) }
  function InfoRowOf(m: MediaSource, kind: InfoKind): InfoRow { InfoRow(kind, m.size, m.path) }

  // ---- Bulk upsert. `insertBulk` is used as an upsert: a submitted id that is already
  // ---- stored has its row replaced; within one batch the last row for an id wins.

  function IdsOf<R>(rows: seq<(Id, R)>): set<Id>
  {
    if rows == [] then {} else IdsOf(rows[..|rows| - 1]) + {rows[|rows| - 1].0}
  }

  lemma {:induction false} IdsOfConcat<R>(a: seq<(Id, R)>, b: seq<(Id, R)>)
    ensures IdsOf(a + b) == IdsOf(a) + IdsOf(b)
    decreases |b|
  {
    if b != [] {
      var b' := b[..|b| - 1];
      assert (a + b)[..|a + b| - 1] == a + b';
      IdsOfConcat(a, b');
    } else {
      assert a + b == a;
    }
  }

  /** The rows of one batch as a map from id to row. */
  function ToMap<R>(rows: seq<(Id, R)>): (m: map<Id, R>)
    ensures m.Keys == IdsOf(rows)
  {
    if rows == [] then map[]
    else ToMap(rows[..|rows| - 1])[rows[|rows| - 1].0 := rows[|rows| - 1].1]
  }

  /** Every row of the map is a row of the batch, and it is the last row for its id. */
  lemma {:induction false} ToMapLastWins<R>(rows: seq<(Id, R)>, id: Id)
    requires id in ToMap(rows)
    ensures exists k :: 0 <= k < |rows| && rows[k] == (id, ToMap(rows)[id])
                        && forall j :: k < j < |rows| ==> rows[j].0 != id
  {
    var init := rows[..|rows| - 1];
    if rows[|rows| - 1].0 != id {
      ToMapLastWins(init, id);
      var k :| 0 <= k < |init| && init[k] == (id, ToMap(init)[id]) && forall j :: k < j < |init| ==> init[j].0 != id;
      assert rows[k] == init[k];
      assert forall j :: k < j < |rows| ==> rows[j].0 != id by {
        forall j | k < j < |rows| ensures rows[j].0 != id {
          if j < |init| { assert rows[j] == init[j]; }
        }
      }
    }
  }

  // ---- `updateSingleFieldBulk(table, ids, "archived", true)`: soft deletion of the given ids.

  function ArchiveLibraries(m: map<Id, LibraryRow>, ids: set<Id>): map<Id, LibraryRow>
  {
    map id | id in m :: if id in ids then m[id].(archived := true) else m[id]
  }

  function ArchiveItems(m: map<Id, ItemRow>, ids: set<Id>): map<Id, ItemRow>
  {
    map id | id in m :: if id in ids then m[id].(archived := true) else m[id]
  }

  function ArchiveSeasons(m: map<Id, SeasonRow>, ids: set<Id>): map<Id, SeasonRow>
  {
    map id | id in m :: if id in ids then m[id].(archived := true) else m[id]
  }

  function ArchiveEpisodes(m: map<Id, EpisodeRow>, ids: set<Id>): map<Id, EpisodeRow>
  {
    map id | id in m :: if id in ids then m[id].(archived := true) else m[id]
  }

  // ---- The ids a `WHERE archived = false` query returns.

  function ActiveLibraries(m: map<Id, LibraryRow>): set<Id> { set id | id in m && !m[id].archived }
  function ActiveItems(m: map<Id, ItemRow>): set<Id> { set id | id in m && !m[id].archived }
  function ActiveSeasons(m: map<Id, SeasonRow>): set<Id> { set id | id in m && !m[id].archived }
  function ActiveEpisodes(m: map<Id, EpisodeRow>): set<Id> { set id | id in m && !m[id].archived }

  /** The defined ids of a list of fetched records. */
  function DefinedIds(records: seq<RemoteItem>): set<Id>
  {
    set r | r in records && r.id.Some? :: r.id.value
  }

  /** The keyed rows of a batch; records without an id are left out. */
  function RowsOf<R>(rowOf: RemoteItem -> R, batch: seq<RemoteItem>): seq<(Id, R)>
  {
    if batch == [] then []
    else (if batch[0].id.Some? then [(batch[0].id.value, rowOf(batch[0]))] else []) + RowsOf(rowOf, batch[1..])
  }

  /** The keys of a batch's rows are exactly the defined ids of its records. */
  lemma {:induction false} RowsOfIds<R>(rowOf: RemoteItem -> R, batch: seq<RemoteItem>)
    ensures IdsOf(RowsOf(rowOf, batch)) == DefinedIds(batch)
  {
    if batch != [] {
      var head := if batch[0].id.Some? then [(batch[0].id.value, rowOf(batch[0]))] else [];
      RowsOfIds(rowOf, batch[1..]);
      IdsOfConcat(head, RowsOf(rowOf, batch[1..]));
      assert IdsOf(head) == if batch[0].id.Some? then {batch[0].id.value} else {} by {
        if batch[0].id.Some? { assert head == [] + [head[0]]; }
      }
      DefinedIdsCons(batch);
    }
  }

  lemma DefinedIdsCons(batch: seq<RemoteItem>)
    requires batch != []
    ensures DefinedIds(batch) == (if batch[0].id.Some? then {batch[0].id.value} else {}) + DefinedIds(batch[1..])
  {
    assert forall r :: r in batch <==> r == batch[0] || r in batch[1..] by {
      assert batch == [batch[0]] + batch[1..];
    }
  }

  /** The elements of a list of ids (the `.some(row => row === id)` membership test). */
  function Members(s: seq<Id>): (r: set<Id>)
    ensures forall x :: x in r <==> x in s
  {
    if s == [] then {} else {s[0]} + Members(s[1..])
  }

  // ---- Set-difference archiving: what stays active is exactly what was active and fetched.

  lemma ArchiveItemsExact(m: map<Id, ItemRow>, fetched: set<Id>)
    ensures var r := ArchiveItems(m, ActiveItems(m) - fetched);
            r.Keys == m.Keys && ActiveItems(r) == ActiveItems(m) * fetched
            && forall id :: id in m ==> r[id].(archived := false) == m[id].(archived := false)
  {
  }

  lemma ArchiveSeasonsExact(m: map<Id, SeasonRow>, fetched: set<Id>)
    ensures var r := ArchiveSeasons(m, ActiveSeasons(m) - fetched);
            r.Keys == m.Keys && ActiveSeasons(r) == ActiveSeasons(m) * fetched
            && forall id :: id in m ==> r[id].(archived := false) == m[id].(archived := false)
  {
  }

  lemma ArchiveEpisodesExact(m: map<Id, EpisodeRow>, fetched: set<Id>)
    ensures var r := ArchiveEpisodes(m, ActiveEpisodes(m) - fetched);
            r.Keys == m.Keys && ActiveEpisodes(r) == ActiveEpisodes(m) * fetched
            && forall id :: id in m ==> r[id].(archived := false) == m[id].(archived := false)
  {
  }
}
