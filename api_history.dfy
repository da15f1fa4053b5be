/** History grouping (`groupActivity` of backend/routes/api.js): playback rows are grouped by the
    concatenation of their `NowPlayingItemId` and `EpisodeId`; each group shows the fields of its
    latest row, the rows themselves, their summed duration and their count. */
module ApiHistory {
  import opened Wrappers
  import opened Catalog

  /** One group. `head` is the row whose fields the group shows (its `playbackDuration` replaced
      by the sum once the group is summed), `results` its rows, and `totalPlays` the `TotalPlays`
      field, absent until the second pass. */
  datatype Group = Group(head: Activity, results: seq<Activity>, totalPlays: Option<nat>)

  /** How a SQL NULL `EpisodeId` reads once concatenated to a string. */
  function EpisodeText(e: Option<Id>): string
  {
    if e.Some? then e.value else "null"
  }

  /** The grouping key: `NowPlayingItemId + EpisodeId`, a plain string concatenation. */
  function Key(row: Activity): string
  {
    row.nowPlayingItemId + EpisodeText(row.episodeId)
  }

  /** The rows among the first `n` whose key is `key`, in input order. */
  function Matching(rows: seq<Activity>, key: string, n: nat): seq<Activity>
    requires n <= |rows|
  {
    if n == 0 then []
    else if Key(rows[n - 1]) == key then Matching(rows, key, n - 1) + [rows[n - 1]]
    else Matching(rows, key, n - 1)
  }

  /** The keys of the first `n` rows. */
  function KeysUpTo(rows: seq<Activity>, n: nat): set<string>
    requires n <= |rows|
  {
    if n == 0 then {} else KeysUpTo(rows, n - 1) + {Key(rows[n - 1])}
  }

  /** The keys of the first `n` rows in the order they first occur: the order in which a
      JavaScript object lists string keys that are not array indices, and so the order of
      `Object.values` over the groups. Every key is listed once. */
  function FirstOccurrence(rows: seq<Activity>, n: nat): (order: seq<string>)
    requires n <= |rows|
    ensures forall key :: key in order <==> key in KeysUpTo(rows, n)
    ensures forall i, j :: 0 <= i < j < |order| ==> order[i] != order[j]
  {
    if n == 0 then []
    else if Key(rows[n - 1]) in KeysUpTo(rows, n - 1) then FirstOccurrence(rows, n - 1)
    else FirstOccurrence(rows, n - 1) + [Key(rows[n - 1])]
  }

  /** Among the first `n` rows, `a` occurs before `b` first does. */
  predicate OccursBefore(rows: seq<Activity>, n: nat, a: string, b: string)
    requires n <= |rows|
  {
    exists p :: 0 <= p < n && Key(rows[p]) == a && forall q :: 0 <= q <= p ==> Key(rows[q]) != b
  }

  /** A key listed earlier than another first occurs earlier in the rows. */
  lemma {:induction false} FirstOccurrenceOrdered(rows: seq<Activity>, n: nat)
    requires n <= |rows|
    ensures forall i, j :: 0 <= i < j < |FirstOccurrence(rows, n)| ==>
              OccursBefore(rows, n, FirstOccurrence(rows, n)[i], FirstOccurrence(rows, n)[j])
  {
    if n > 0 {
      FirstOccurrenceOrdered(rows, n - 1);
      var prev := FirstOccurrence(rows, n - 1);
      var order := FirstOccurrence(rows, n);
      var key := Key(rows[n - 1]);
      forall i, j | 0 <= i < j < |order|
        ensures OccursBefore(rows, n, order[i], order[j])
      {
        if j < |prev| {
          assert order[i] == prev[i] && order[j] == prev[j];
          assert OccursBefore(rows, n - 1, prev[i], prev[j]);
          var p :| 0 <= p < n - 1 && Key(rows[p]) == prev[i] && forall q :: 0 <= q <= p ==> Key(rows[q]) != prev[j];
          assert 0 <= p < n && Key(rows[p]) == order[i];
        } else {
          assert key !in KeysUpTo(rows, n - 1) && order[j] == key;
          assert order[i] == prev[i] && prev[i] in KeysUpTo(rows, n - 1);
          KeysUpToRows(rows, n - 1, prev[i]);
          KeysUpToRows(rows, n - 1, key);
          var p :| 0 <= p < n - 1 && Key(rows[p]) == prev[i];
          assert forall q :: 0 <= q <= p ==> Key(rows[q]) != key;
        }
      }
    }
  }

  /** The row whose fields the group of `key` shows after the first `n` rows: the first of them,
      replaced by a later row only when that row's `ActivityDateInserted` is strictly greater. */
  function Lead(rows: seq<Activity>, key: string, n: nat): Activity
    requires n <= |rows| && key in KeysUpTo(rows, n)
  {
    if Key(rows[n - 1]) != key then Lead(rows, key, n - 1)
    else if key !in KeysUpTo(rows, n - 1) then rows[n - 1]
    else
      var prev := Lead(rows, key, n - 1);
      if rows[n - 1].activityDateInserted > prev.activityDateInserted then rows[n - 1] else prev
  }

  /** Sum of the `PlaybackDuration` of the rows. */
  function DurationSum(rows: seq<Activity>): int
  {
    if rows == [] then 0 else DurationSum(rows[..|rows| - 1]) + rows[|rows| - 1].playbackDuration
  }

  /** The second pass on one group: a group with rows gets the summed duration and the count. */
  function Summed(g: Group): Group
  {
    if |g.results| > 0 then Group(g.head.(playbackDuration := DurationSum(g.results)), g.results, Some(|g.results|))
    else g
  }

  /** The grouping after the first pass over the first `n` rows. */
  predicate FirstPass(groups: map<string, Group>, rows: seq<Activity>, n: nat)
    requires n <= |rows|
  {
    && groups.Keys == KeysUpTo(rows, n)
    && forall key :: key in groups ==> groups[key] == Group(Lead(rows, key, n), Matching(rows, key, n), None)
  }

  /** One row of the first pass: the dictionary after `n` rows, updated as the loop body does,
      is the dictionary after `n + 1` rows. */
  lemma FirstPassStep(groups: map<string, Group>, rows: seq<Activity>, n: nat)
    requires n < |rows| && FirstPass(groups, rows, n)
    ensures var row := rows[n];
            var key := Key(row);
            var next := if key in groups then
                          var g := groups[key];
                          var h := if row.activityDateInserted > g.head.activityDateInserted then row else g.head;
                          groups[key := Group(h, g.results + [row], None)]
                        else groups[key := Group(row, [row], None)];
            FirstPass(next, rows, n + 1)
  {
    var row := rows[n];
    var key := Key(row);
    var next := if key in groups then
                  var g := groups[key];
                  var h := if row.activityDateInserted > g.head.activityDateInserted then row else g.head;
                  groups[key := Group(h, g.results + [row], None)]
                else groups[key := Group(row, [row], None)];
    assert KeysUpTo(rows, n + 1) == KeysUpTo(rows, n) + {key};
    assert next.Keys == KeysUpTo(rows, n + 1);
    forall k | k in next
      ensures next[k] == Group(Lead(rows, k, n + 1), Matching(rows, k, n + 1), None)
    {
      if k != key {
        assert Lead(rows, k, n + 1) == Lead(rows, k, n);
      } else if key in groups {
        assert groups[key] == Group(Lead(rows, key, n), Matching(rows, key, n), None);
      } else {
        assert Matching(rows, key, n) == [] by { MatchingNonEmpty(rows, key, n); }
      }
    }
  }

  /** The first pass: one `forEach` over the rows building the dictionary of groups; `order`
      lists the dictionary's keys in insertion order. */
  method GroupRows(rows: seq<Activity>) returns (groups: map<string, Group>, order: seq<string>)
    ensures FirstPass(groups, rows, |rows|)
    ensures order == FirstOccurrence(rows, |rows|)
  {
    groups := map[];
    order := [];
    var i := 0;
    while i < |rows|
      invariant i <= |rows|
      invariant FirstPass(groups, rows, i)
      invariant order == FirstOccurrence(rows, i)
    {
      var row := rows[i];
      var key := Key(row);
      ghost var before := groups;
      if key in groups {
        var g := groups[key];
        if row.activityDateInserted > g.head.activityDateInserted {
          g := g.(head := row);
        }
        groups := groups[key := g.(results := g.results + [row])];
      } else {
        groups := groups[key := Group(row, [row], None)];
        order := order + [key];
      }
      FirstPassStep(before, rows, i);
      i := i + 1;
    }
  }

  /** The second pass: every group with rows is summed; the keys are visited in any order. */
  method SumGroups(groups: map<string, Group>) returns (summed: map<string, Group>)
    ensures summed.Keys == groups.Keys
    ensures forall key :: key in groups ==> summed[key] == Summed(groups[key])
  {
    summed := groups;
    var todo := groups.Keys;
    while todo != {}
      invariant todo <= groups.Keys && summed.Keys == groups.Keys
      invariant forall key :: key in groups && key !in todo ==> summed[key] == Summed(groups[key])
      invariant forall key :: key in todo ==> summed[key] == groups[key]
      decreases todo
    {
      var key :| key in todo;
      var g := summed[key];
      if |g.results| > 0 {
        summed := summed[key := Summed(g)];
      }
      todo := todo - {key};
    }
  }

  /** `groupActivity(rows)`: one group per key, holding exactly that key's rows in input order,
      their count and summed duration, and the fields of the key's lead row. `order` is the order
      in which the routes' `Object.values` lists the groups: every key once, by first occurrence. */
  method GroupActivity(rows: seq<Activity>) returns (groups: map<string, Group>, order: seq<string>)
    ensures groups.Keys == KeysUpTo(rows, |rows|)
    ensures forall key :: key in groups ==>
              groups[key] == Summed(Group(Lead(rows, key, |rows|), Matching(rows, key, |rows|), None))
    ensures order == FirstOccurrence(rows, |rows|)
    ensures forall key :: key in order <==> key in groups
    ensures forall i, j :: 0 <= i < j < |order| ==> order[i] != order[j]
  {
    var firstPass;
    firstPass, order := GroupRows(rows);
    groups := SumGroups(firstPass);
  }

  /** A key has a group exactly when some row carries it. */
  lemma {:induction false} KeysUpToRows(rows: seq<Activity>, n: nat, key: string)
    requires n <= |rows|
    ensures key in KeysUpTo(rows, n) <==> exists j :: 0 <= j < n && Key(rows[j]) == key
  {
    if n > 0 {
      KeysUpToRows(rows, n - 1, key);
    }
  }

  /** Every row of a group carries the group's key. */
  lemma {:induction false} MatchingKeys(rows: seq<Activity>, key: string, n: nat)
    requires n <= |rows|
    ensures forall r :: r in Matching(rows, key, n) ==> Key(r) == key
  {
    if n > 0 {
      MatchingKeys(rows, key, n - 1);
    }
  }

  /** Every row carrying the key is in the key's group. */
  lemma {:induction false} MatchingCovers(rows: seq<Activity>, key: string, n: nat)
    requires n <= |rows|
    ensures forall j :: 0 <= j < n && Key(rows[j]) == key ==> rows[j] in Matching(rows, key, n)
  {
    if n > 0 {
      MatchingCovers(rows, key, n - 1);
    }
  }

  /** A group holds each row at most as often as the input does, so no row is duplicated. */
  lemma {:induction false} MatchingSubMultiset(rows: seq<Activity>, key: string, n: nat)
    requires n <= |rows|
    ensures multiset(Matching(rows, key, n)) <= multiset(rows[..n])
  {
    if n > 0 {
      MatchingSubMultiset(rows, key, n - 1);
      assert rows[..n] == rows[..n - 1] + [rows[n - 1]];
    }
  }

  /** A key with a group has at least one row in it, so every group is summed. */
  lemma {:induction false} MatchingNonEmpty(rows: seq<Activity>, key: string, n: nat)
    requires n <= |rows|
    ensures |Matching(rows, key, n)| > 0 <==> key in KeysUpTo(rows, n)
  {
    if n > 0 {
      MatchingNonEmpty(rows, key, n - 1);
    }
  }

  /** Row `j` is, among the first `n` rows carrying `key`, one with the greatest
      `ActivityDateInserted` and the first such row. */
  predicate FirstLatest(rows: seq<Activity>, key: string, n: nat, j: nat)
    requires n <= |rows|
  {
    && j < n && Key(rows[j]) == key
    && (forall i :: 0 <= i < n && Key(rows[i]) == key ==> rows[i].activityDateInserted <= rows[j].activityDateInserted)
    && (forall i :: 0 <= i < j && Key(rows[i]) == key ==> rows[i].activityDateInserted < rows[j].activityDateInserted)
  }

  /** A row with another key leaves the first latest row of `key` in place. */
  lemma FirstLatestSkip(rows: seq<Activity>, key: string, n: nat, j: nat)
    requires 0 < n <= |rows| && FirstLatest(rows, key, n - 1, j) && Key(rows[n - 1]) != key
    ensures FirstLatest(rows, key, n, j)
  {
  }

  /** The first row with the key is the first latest one so far. */
  lemma FirstLatestFresh(rows: seq<Activity>, key: string, n: nat)
    requires 0 < n <= |rows| && Key(rows[n - 1]) == key
    requires forall i :: 0 <= i < n - 1 ==> Key(rows[i]) != key
    ensures FirstLatest(rows, key, n, n - 1)
  {
  }

  /** A row with the key takes over exactly when its date is strictly later. */
  lemma FirstLatestExtend(rows: seq<Activity>, key: string, n: nat, j: nat)
    requires 0 < n <= |rows| && FirstLatest(rows, key, n - 1, j) && Key(rows[n - 1]) == key
    ensures rows[n - 1].activityDateInserted > rows[j].activityDateInserted ==> FirstLatest(rows, key, n, n - 1)
    ensures rows[n - 1].activityDateInserted <= rows[j].activityDateInserted ==> FirstLatest(rows, key, n, j)
  {
  }

  /** The lead row of a group is one of its rows with the greatest `ActivityDateInserted`, and the
      first such row: an earlier row of the group with the same date never takes over. */
  lemma {:induction false} LeadIsFirstLatest(rows: seq<Activity>, key: string, n: nat)
    requires n <= |rows| && key in KeysUpTo(rows, n)
    ensures exists j: nat :: FirstLatest(rows, key, n, j) && rows[j] == Lead(rows, key, n)
  {
    if Key(rows[n - 1]) != key {
      LeadIsFirstLatest(rows, key, n - 1);
      var j: nat :| FirstLatest(rows, key, n - 1, j) && rows[j] == Lead(rows, key, n - 1);
      FirstLatestSkip(rows, key, n, j);
    } else if key !in KeysUpTo(rows, n - 1) {
      KeysUpToRows(rows, n - 1, key);
      FirstLatestFresh(rows, key, n);
    } else {
      LeadIsFirstLatest(rows, key, n - 1);
      var j: nat :| FirstLatest(rows, key, n - 1, j) && rows[j] == Lead(rows, key, n - 1);
      FirstLatestExtend(rows, key, n, j);
    }
  }

  /** The key is a bare concatenation: rows of two different titles can share a group. */
  lemma KeysCanCollide()
    ensures var a := Activity("u", "user", "ab", "A", Some("c"), None, None, 0, 0);
            var b := Activity("u", "user", "a", "B", Some("bc"), None, None, 0, 0);
            a.nowPlayingItemId != b.nowPlayingItemId && Key(a) == Key(b)
  {
    var a := Activity("u", "user", "ab", "A", Some("c"), None, None, 0, 0);
    var b := Activity("u", "user", "a", "B", Some("bc"), None, None, 0, 0);
    assert Key(a) == "ab" + "c";
    assert Key(b) == "a" + "bc";
    assert "ab" + "c" == ['a', 'b', 'c'] == "a" + "bc";
  }
}
