/** Deletion rules (backend/models/jf_deletion_rules.js): the stored rule rows and their field
    defaults, the day arithmetic, the choice of finder by media type, and the preview that sorts
    a rule's candidate items into buckets. The finders' SQL is not modelled: what each finder
    returns for a rule is an input. */
module DeletionRules {
  import opened Wrappers

  /** A row of `jf_deletion_rules`. `enabled` is None for NULL (read as false); `exclusions` is
      the stored JSON text. */
  datatype RuleRow = RuleRow(
    id: int, libraryId: string, ruleName: string, mediaType: string, daysSinceWatched: int,
    enabled: Option<bool>, exclusions: string, warningDays: int)

  /** A rule as `getRules`/`getRuleById` list it: the row joined with its library's name. */
  datatype ListedRule = ListedRule(row: RuleRow, libraryName: string)

  /** The body of a create or update request. `enabled` is None only when the member is missing
      (it is then stored as NULL), an explicit `false` being `Some(false)`; `exclusions` is None
      when missing or falsy; `warningDays` is None when missing, a zero being handled by
      `WarningDaysOf`. */
  datatype RuleData = RuleData(
    libraryId: string, ruleName: string, mediaType: string, daysSinceWatched: int,
    enabled: Option<bool>, exclusions: Option<string>, warningDays: Option<int>)

  const DefaultWarningDays := 3
  const EmptyExclusions := "{}"

  predicate Enabled(row: RuleRow)
  {
    row.enabled == Some(true)
  }

  /** `JSON.stringify(ruleData.exclusions || {})`. */
  function ExclusionsText(e: Option<string>): string
  {
    if e.Some? then e.value else EmptyExclusions
  }

  /** `ruleData.warning_days || 3`: zero is falsy too. */
  function WarningDaysOf(w: Option<int>): (r: int)
    ensures r != 0
    ensures w.Some? && w.value != 0 ==> r == w.value
    ensures (w.None? || w.value == 0) ==> r == DefaultWarningDays
  {
    if w.Some? && w.value != 0 then w.value else DefaultWarningDays
  }

  /** The row `createRule` inserts under the fresh id `id`. */
  function CreateRule(id: int, data: RuleData): (r: RuleRow)
    ensures r.id == id && r.libraryId == data.libraryId && r.ruleName == data.ruleName
    ensures r.mediaType == data.mediaType && r.daysSinceWatched == data.daysSinceWatched && r.enabled == data.enabled
    ensures r.exclusions == (if data.exclusions.Some? then data.exclusions.value else "{}")
    ensures r.warningDays == (if data.warningDays.Some? && data.warningDays.value != 0 then data.warningDays.value else 3)
  {
    RuleRow(id, data.libraryId, data.ruleName, data.mediaType, data.daysSinceWatched,
            data.enabled, ExclusionsText(data.exclusions), WarningDaysOf(data.warningDays))
  }

  /** `updateRule(id, data)` on the row currently stored under `id` (None when there is none, in
      which case the update returns nothing). Every column is rewritten with the same defaults
      as on creation; the id is kept. */
  function UpdateRule(current: Option<RuleRow>, data: RuleData): (r: Option<RuleRow>)
    ensures r.Some? <==> current.Some?
    ensures r.Some? ==> r.value.id == current.value.id && r.value.warningDays != 0
    ensures r.Some? ==> r.value.exclusions == ExclusionsText(data.exclusions)
    ensures r.Some? ==> r.value.(id := 0) == CreateRule(0, data)
  {
    if current.None? then None else Some(CreateRule(current.value.id, data))
  }

  // ---- Day arithmetic and finder dispatch

  /** A candidate item as a finder returns it; `daysSinceWatched` is the whole number of days
      since the item was last watched. */
  datatype FoundItem = FoundItem(title: string, daysSinceWatched: int, lastWatchDate: string)

  /** `rule.days_since_watched - parseInt(item.days_since_watched)`. */
  function DaysUntilDeletion(item: FoundItem, rule: RuleRow): (d: int)
    ensures d <= 0 <==> item.daysSinceWatched >= rule.daysSinceWatched
    ensures d + item.daysSinceWatched == rule.daysSinceWatched
  {
    rule.daysSinceWatched - item.daysSinceWatched
  }

  datatype Finder = ShowFinder | EpisodeFinder | MovieFinder

  /** `findItemsForDeletion`: 'show' and 'episode' have their own finder; every other media type
      uses the movie query. */
  function FinderFor(mediaType: string): (f: Finder)
    ensures f == ShowFinder <==> mediaType == "show"
    ensures f == EpisodeFinder <==> mediaType == "episode"
    ensures f == MovieFinder <==> mediaType != "show" && mediaType != "episode"
  {
    if mediaType == "show" then ShowFinder
    else if mediaType == "episode" then EpisodeFinder
    else MovieFinder
  }

  /** What each finder returns for each rule: the results of the SQL queries. */
  type Finders = (Finder, RuleRow) -> seq<FoundItem>

  function FindItemsForDeletion(rule: RuleRow, found: Finders): seq<FoundItem>
  {
    found(FinderFor(rule.mediaType), rule)
  }

  /** Every finder keeps only items watched at least the rule's number of days ago. */
  ghost predicate WithinThreshold(found: Finders)
  {
    forall f, rule, i :: 0 <= i < |found(f, rule)| ==> found(f, rule)[i].daysSinceWatched >= rule.daysSinceWatched
  }

  // ---- Preview

  datatype Bucket = DeleteNow | WarnSoon | Keep

  /** The branch of the classification a number of days until deletion falls in. */
  function BucketOf(d: int, warningDays: int): (b: Bucket)
    ensures b == DeleteNow <==> d <= 0
    ensures b == WarnSoon <==> 0 < d <= warningDays
    ensures b == Keep <==> d > 0 && d > warningDays
  {
    if d <= 0 then DeleteNow else if d <= warningDays then WarnSoon else Keep
  }

  datatype ItemInfo = ItemInfo(title: string, daysSinceWatched: int, daysUntilDeletion: int, lastWatched: string)

  function InfoOf(item: FoundItem, rule: RuleRow): ItemInfo
  {
    ItemInfo(item.title, item.daysSinceWatched, DaysUntilDeletion(item, rule), item.lastWatchDate)
  }

  function BucketOfItem(item: FoundItem, rule: RuleRow): Bucket
  {
    BucketOf(DaysUntilDeletion(item, rule), rule.warningDays)
  }

  /** The entries of bucket `b` after the first `n` items, in item order. */
  function InBucket(items: seq<FoundItem>, rule: RuleRow, b: Bucket, n: nat): seq<ItemInfo>
    requires n <= |items|
  {
    if n == 0 then []
    else if BucketOfItem(items[n - 1], rule) == b then InBucket(items, rule, b, n - 1) + [InfoOf(items[n - 1], rule)]
    else InBucket(items, rule, b, n - 1)
  }

  datatype Buckets = Buckets(toDelete: seq<ItemInfo>, warningSoon: seq<ItemInfo>, protected: seq<ItemInfo>)

  function BucketsAfter(items: seq<FoundItem>, rule: RuleRow, n: nat): Buckets
    requires n <= |items|
  {
    Buckets(InBucket(items, rule, DeleteNow, n), InBucket(items, rule, WarnSoon, n), InBucket(items, rule, Keep, n))
  }

  /** The loop of `previewRule` pushing each item's summary into its bucket. */
  method ClassifyItems(items: seq<FoundItem>, rule: RuleRow) returns (b: Buckets)
    ensures b == BucketsAfter(items, rule, |items|)
  {
    b := Buckets([], [], []);
    for i := 0 to |items|
      invariant b == BucketsAfter(items, rule, i)
    {
      var item := items[i];
      var d := DaysUntilDeletion(item, rule);
      var info := ItemInfo(item.title, item.daysSinceWatched, d, item.lastWatchDate);
      if d <= 0 {
        b := b.(toDelete := b.toDelete + [info]);
      } else if d <= rule.warningDays {
        b := b.(warningSoon := b.warningSoon + [info]);
      } else {
        b := b.(protected := b.protected + [info]);
      }
    }
  }

  /** Each item lands in exactly one bucket: the three bucket sizes add up to the item count. */
  lemma {:induction false} BucketsPartition(items: seq<FoundItem>, rule: RuleRow, n: nat)
    requires n <= |items|
    ensures |InBucket(items, rule, DeleteNow, n)| + |InBucket(items, rule, WarnSoon, n)| + |InBucket(items, rule, Keep, n)| == n
  {
    if n > 0 {
      BucketsPartition(items, rule, n - 1);
    }
  }

  /** A bucket holds exactly the items whose days until deletion fall in its range. */
  lemma {:induction false} InBucketMembers(items: seq<FoundItem>, rule: RuleRow, b: Bucket, n: nat)
    requires n <= |items|
    ensures forall info :: info in InBucket(items, rule, b, n) ==>
              exists j :: 0 <= j < n && info == InfoOf(items[j], rule) && BucketOfItem(items[j], rule) == b
    ensures forall j :: 0 <= j < n && BucketOfItem(items[j], rule) == b ==> InfoOf(items[j], rule) in InBucket(items, rule, b, n)
  {
    if n > 0 {
      InBucketMembers(items, rule, b, n - 1);
    }
  }

  /** For finder output every item is due: nothing is only warned about or protected. */
  lemma {:induction false} FoundItemsAllDue(items: seq<FoundItem>, rule: RuleRow, n: nat)
    requires n <= |items|
    requires forall i :: 0 <= i < |items| ==> items[i].daysSinceWatched >= rule.daysSinceWatched
    ensures InBucket(items, rule, WarnSoon, n) == [] && InBucket(items, rule, Keep, n) == []
    ensures |InBucket(items, rule, DeleteNow, n)| == n
  {
    if n > 0 {
      FoundItemsAllDue(items, rule, n - 1);
    }
  }

  datatype Summary = Summary(totalItems: nat, toDelete: nat, warningSoon: nat, protected: nat)

  datatype Preview = Preview(
    ruleName: string, libraryName: string, mediaType: string, daysThreshold: int, warningDays: int,
    status: string, summary: Summary, items: Buckets)

  /** One entry of `previewRules`. */
  datatype PreviewEntry = DisabledEntry(name: string) | RulePreview(preview: Preview)

  function StatusText(row: RuleRow): string
  {
    if Enabled(row) then "enabled" else "disabled"
  }

  /** The preview of one rule, given what its finder returns. */
  function PreviewOf(rule: ListedRule, found: Finders): Preview
  {
    var items := FindItemsForDeletion(rule.row, found);
    var b := BucketsAfter(items, rule.row, |items|);
    Preview(rule.row.ruleName, rule.libraryName, rule.row.mediaType, rule.row.daysSinceWatched, rule.row.warningDays,
            StatusText(rule.row), Summary(|items|, |b.toDelete|, |b.warningSoon|, |b.protected|), b)
  }

  /** A preview's summary counts the buckets and adds up to the number of candidate items. */
  lemma PreviewSummary(rule: ListedRule, found: Finders)
    ensures var p := PreviewOf(rule, found);
            && p.summary.toDelete == |p.items.toDelete| && p.summary.warningSoon == |p.items.warningSoon|
            && p.summary.protected == |p.items.protected|
            && p.summary.toDelete + p.summary.warningSoon + p.summary.protected == p.summary.totalItems
  {
    var items := FindItemsForDeletion(rule.row, found);
    BucketsPartition(items, rule.row, |items|);
  }

  /** With finders that keep only items past the threshold, a preview puts every item in
      `to_delete`. */
  lemma PreviewOfFoundItems(rule: ListedRule, found: Finders)
    requires WithinThreshold(found)
    ensures var p := PreviewOf(rule, found);
            p.items.warningSoon == [] && p.items.protected == [] && p.summary.toDelete == p.summary.totalItems
  {
    var items := FindItemsForDeletion(rule.row, found);
    FoundItemsAllDue(items, rule.row, |items|);
  }

  /** `getRuleById(id)`: the listed rule with that id, the first one should several share it. */
  function RuleById(rules: seq<ListedRule>, id: int): (r: Option<ListedRule>)
    ensures r.None? <==> forall i :: 0 <= i < |rules| ==> rules[i].row.id != id
    ensures r.Some? ==> r.value in rules && r.value.row.id == id
  {
    if rules == [] then None
    else if rules[0].row.id == id then Some(rules[0])
    else
      var rest := RuleById(rules[1..], id);
      assert forall i :: 1 <= i < |rules| ==> rules[i] == rules[1..][i - 1];
      rest
  }

  const RuleNotFound := "Rule not found"

  /** `previewRule(ruleId)`: an unknown id throws "Rule not found". */
  method PreviewRule(rules: seq<ListedRule>, ruleId: int, found: Finders) returns (r: Result<Preview, string>)
    ensures RuleById(rules, ruleId).None? ==> r == Err(RuleNotFound)
    ensures RuleById(rules, ruleId).Some? ==> r == Ok(PreviewOf(RuleById(rules, ruleId).value, found))
  {
    var rule := RuleById(rules, ruleId);
    if rule.None? {
      return Err(RuleNotFound);
    }
    var items := FindItemsForDeletion(rule.value.row, found);
    var b := ClassifyItems(items, rule.value.row);
    var summary := Summary(|items|, |b.toDelete|, |b.warningSoon|, |b.protected|);
    r := Ok(Preview(rule.value.row.ruleName, rule.value.libraryName, rule.value.row.mediaType,
                    rule.value.row.daysSinceWatched, rule.value.row.warningDays, StatusText(rule.value.row), summary, b));
  }

  /** The entry `previewRules` shows for the listed rule `rule`. */
  function EntryFor(rules: seq<ListedRule>, rule: ListedRule, found: Finders): PreviewEntry
    requires RuleById(rules, rule.row.id).Some?
  {
    if !Enabled(rule.row) then DisabledEntry(rule.row.ruleName)
    else RulePreview(PreviewOf(RuleById(rules, rule.row.id).value, found))
  }

  /** `previewRules()`: one entry per listed rule, in order; a disabled rule shows as disabled
      with no items, an enabled one is previewed by id. */
  method PreviewRules(rules: seq<ListedRule>, found: Finders) returns (preview: seq<PreviewEntry>)
    ensures |preview| == |rules|
    ensures forall i :: 0 <= i < |rules| ==> RuleById(rules, rules[i].row.id).Some? && preview[i] == EntryFor(rules, rules[i], found)
  {
    preview := [];
    for i := 0 to |rules|
      invariant |preview| == i
      invariant forall k :: 0 <= k < i ==> RuleById(rules, rules[k].row.id).Some? && preview[k] == EntryFor(rules, rules[k], found)
    {
      var rule := rules[i];
      assert RuleById(rules, rule.row.id).Some?;
      if !Enabled(rule.row) {
        preview := preview + [DisabledEntry(rule.row.ruleName)];
      } else {
        var p := PreviewRule(rules, rule.row.id, found);
        preview := preview + [RulePreview(p.value)];
      }
    }
  }

  /** With distinct ids, each enabled rule is previewed from its own row. */
  lemma PreviewRulesOwnRow(rules: seq<ListedRule>, found: Finders, i: nat)
    requires i < |rules|
    requires forall a, b :: 0 <= a < b < |rules| ==> rules[a].row.id != rules[b].row.id
    ensures RuleById(rules, rules[i].row.id) == Some(rules[i])
  {
    var r := RuleById(rules, rules[i].row.id);
    var k :| 0 <= k < |rules| && rules[k] == r.value;
    assert k == i;
  }
}
