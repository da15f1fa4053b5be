/** User replacement and library-folder archiving (`syncUserData`, `syncLibraryFolders` of
    backend/routes/sync.js). */
module SyncUsers {
  import opened Catalog
  import opened SyncRun

  function UserRows(data: seq<RemoteUser>): seq<(Id, UserRow)>
  {
    if data == [] then [] else [(data[0].id, UserRow(data[0].name))] + UserRows(data[1..])
  }

  function FetchedUserIds(data: seq<RemoteUser>): set<Id>
  {
    if data == [] then {} else {data[0].id} + FetchedUserIds(data[1..])
  }

  /** The username repair: every activity row of a stored user whose name differs takes the stored name. */
  function RepairUserNames(activity: seq<Activity>, users: map<Id, UserRow>): (r: seq<Activity>)
    ensures |r| == |activity|
    ensures forall k :: 0 <= k < |r| && r[k].userId in users ==> r[k].userName == users[r[k].userId].name
    ensures forall k :: 0 <= k < |r| ==> r[k] == activity[k].(userName := r[k].userName)
    ensures forall k :: 0 <= k < |r| && activity[k].userId !in users ==> r[k] == activity[k]
  {
    if activity == [] then []
    else
      var a := activity[0];
      var b := if a.userId in users && users[a.userId].name != a.userName then a.(userName := users[a.userId].name) else a;
      [b] + RepairUserNames(activity[1..], users)
  }

  lemma {:induction false} UserRowIds(data: seq<RemoteUser>)
    ensures IdsOf(UserRows(data)) == FetchedUserIds(data)
  {
    if data != [] {
      UserRowIds(data[1..]);
      IdsOfConcat([(data[0].id, UserRow(data[0].name))], UserRows(data[1..]));
      assert IdsOf([(data[0].id, UserRow(data[0].name))]) == {data[0].id} by {
        assert [(data[0].id, UserRow(data[0].name))][..0] == [];
      }
    }
  }

  /** Upserting a batch and then deleting the stored ids the batch does not hold leaves exactly the batch. */
  lemma MirrorAfterPurge<R>(stored: map<Id, R>, target: map<Id, R>)
    ensures (stored + target) - (stored.Keys - target.Keys) == target
  {
    var r := (stored + target) - (stored.Keys - target.Keys);
    assert r.Keys == target.Keys;
    forall id | id in r ensures r[id] == target[id] { }
  }

  /** Upserting the fetched users and then deleting the stored ids that were not fetched leaves
      exactly the fetched users, each with the last fetched row for its id. */
  lemma UserSyncMirrors(stored: map<Id, UserRow>, data: seq<RemoteUser>)
    ensures (stored + ToMap(UserRows(data))) - (stored.Keys - FetchedUserIds(data)) == ToMap(UserRows(data))
  {
    UserRowIds(data);
    MirrorAfterPurge(stored, ToMap(UserRows(data)));
  }

  /** The username repair is idempotent. */
  lemma {:induction false} RepairIdempotent(activity: seq<Activity>, users: map<Id, UserRow>)
    ensures RepairUserNames(RepairUserNames(activity, users), users) == RepairUserNames(activity, users)
  {
    if activity != [] {
      RepairIdempotent(activity[1..], users);
    }
  }

  /** The deletion half of `syncUserData`: stored users missing from the fetch are deleted. */
  method RemoveGoneUsers(task: SyncTask, store: Store, fetched: set<Id>) returns (ok: bool)
    modifies task`calls, task`loggedData, task`throws, store`users
    ensures ok <==> old(store.users).Keys - fetched == {} || AnswerAt(task.script, |old(task.calls)|).SUCCESS?
    ensures var gone := old(store.users).Keys - fetched;
            task.calls == old(task.calls)
                          + if gone != {} then [BulkCall(UsersTable, Delete, |gone|, AnswerAt(task.script, |old(task.calls)|), true)] else []
    ensures Step(old(task.throws), task.throws, task.calls, ok)
    ensures store.users == if ok then old(store.users) - (old(store.users).Keys - fetched) else old(store.users)
    ensures ok ==> task.loggedData == old(task.loggedData)
    ensures !ok ==> task.loggedData == old(task.loggedData) + [ErrorLine(task.calls[|task.calls| - 1])]
  {
    var gone := store.users.Keys - fetched;
    ok := true;
    if gone != {} {
      ok := RemoveData(task, UsersTable, |gone|);
      if ok {
        store.users := store.users - gone;
      }
    } else {
      assert store.users - gone == store.users;
    }
  }

  /** The insertion half of `syncUserData`: the fetched users are upserted when there are any. */
  method UpsertUsers(task: SyncTask, store: Store, data: seq<RemoteUser>) returns (ok: bool)
    modifies task`calls, task`loggedData, task`throws, store`users
    ensures ok <==> |data| == 0 || AnswerAt(task.script, |old(task.calls)|).SUCCESS?
    ensures task.calls == old(task.calls)
                          + if |data| > 0 then [BulkCall(UsersTable, Insert, |data|, AnswerAt(task.script, |old(task.calls)|), true)] else []
    ensures Step(old(task.throws), task.throws, task.calls, ok)
    ensures store.users == if ok then old(store.users) + ToMap(UserRows(data)) else old(store.users)
    ensures ok ==> task.loggedData == old(task.loggedData)
    ensures !ok ==> task.loggedData == old(task.loggedData) + [ErrorLine(task.calls[|task.calls| - 1])]
  {
    ok := true;
    if |data| > 0 {
      ok := InsertData(task, UsersTable, |data|);
      if ok {
        store.users := store.users + ToMap(UserRows(data));
      }
    } else {
      assert UserRows(data) == [];
      assert store.users + ToMap(UserRows(data)) == store.users;
    }
  }

  method SyncUserData(task: SyncTask, store: Store, data: seq<RemoteUser>) returns (ok: bool)
    modifies task`calls, task`loggedData, task`throws, store`users, store`activity
    ensures Step(old(task.throws), task.throws, task.calls, ok)
    ensures var n := |old(task.calls)|;
            var insertOk := |data| == 0 || AnswerAt(task.script, n).SUCCESS?;
            var gone := old(store.users).Keys - FetchedUserIds(data);
            var m := if |data| > 0 then n + 1 else n;
            task.calls == old(task.calls)
                          + (if |data| > 0 then [BulkCall(UsersTable, Insert, |data|, AnswerAt(task.script, n), true)] else [])
                          + (if insertOk && gone != {} then [BulkCall(UsersTable, Delete, |gone|, AnswerAt(task.script, m), true)] else [])
    ensures ok ==> store.users == ToMap(UserRows(data))
    ensures ok ==> store.activity == RepairUserNames(old(store.activity), store.users)
    ensures !ok ==> store.activity == old(store.activity)
    ensures !ok ==> store.users == if task.calls[|task.calls| - 1].op == Insert then old(store.users)
                                   else old(store.users) + ToMap(UserRows(data))
    ensures ok ==> task.loggedData == old(task.loggedData)
    ensures !ok ==> task.loggedData == old(task.loggedData) + [ErrorLine(task.calls[|task.calls| - 1])]
  {
    var fetched := FetchedUserIds(data);
    ghost var target := ToMap(UserRows(data));
    ghost var n := |old(task.calls)|;
    ghost var insertCall := if |data| > 0 then [BulkCall(UsersTable, Insert, |data|, AnswerAt(task.script, n), true)] else [];
    UserRowIds(data);
    ok := UpsertUsers(task, store, data);
    assert store.activity == old(store.activity);
    if !ok {
      return;
    }
    assert task.calls == old(task.calls) + insertCall;
    assert |task.calls| == if |data| > 0 then n + 1 else n;
    assert store.users.Keys - fetched == old(store.users).Keys - fetched;
    var c0 := task.calls;
    ok := RemoveGoneUsers(task, store, fetched);
    assert store.activity == old(store.activity);
    ghost var gone := old(store.users).Keys - fetched;
    assert task.calls == c0 + if gone != {} then [BulkCall(UsersTable, Delete, |gone|, AnswerAt(task.script, |c0|), true)] else [];
    if ok {
      MirrorAfterPurge(old(store.users), target);
      store.activity := RepairUserNames(store.activity, store.users);
    }
  }
}
