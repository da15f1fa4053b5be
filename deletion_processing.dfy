/** `processRules(dryRun)` and `deleteItem` of backend/models/jf_deletion_rules.js: every enabled
    rule's candidate items are deleted or warned about (or, in a dry run, only reported), and a
    deletion goes to the media server, the enabled external services, the deletion history and
    Discord. The outside calls are recorded in order; which of them fail is an input. */
module DeletionProcessing {
  import opened Wrappers
  import opened DeletionRules

  /** The `enabled` flags of `app_config.external_services`; a missing member, or a NULL column
      read as `'{}'`, is disabled. */
  datatype ExternalServices = ExternalServices(sonarr: bool, radarr: bool, jellyseerr: bool, discord: bool)

  const NoServices := ExternalServices(false, false, false, false)

  /** A call to the outside made while processing the rules. */
  datatype Call =
    | DeleteFromJellyfin(item: FoundItem)
    | DeleteFromSonarr(item: FoundItem)
    | DeleteFromRadarr(item: FoundItem)
    | DeleteFromJellyseerr(item: FoundItem)
    | RecordDeletion(item: FoundItem, ruleId: int)
    | NotifyDeletion(item: FoundItem, ruleName: string)
    | WarnDeletion(item: FoundItem, ruleName: string, days: int)

  /** The calls a step made, and whether it ended normally (false: it threw). */
  datatype Attempt = Attempt(calls: seq<Call>, ok: bool)

  /** A delete at an external service (Sonarr, Radarr, Jellyseerr). */
  predicate ServiceDelete(c: Call)
  {
    c.DeleteFromSonarr? || c.DeleteFromRadarr? || c.DeleteFromJellyseerr?
  }

  /** The external deletes `deleteItem` issues after the media server's: Sonarr for a 'show'
      rule, Radarr for a 'movie' rule, Jellyseerr for any rule, each only when enabled. */
  function ServiceCalls(item: FoundItem, rule: RuleRow, services: ExternalServices): (r: seq<Call>)
    ensures forall c :: c in r ==> ServiceDelete(c)
    ensures DeleteFromSonarr(item) in r <==> services.sonarr && rule.mediaType == "show"
    ensures DeleteFromRadarr(item) in r <==> services.radarr && rule.mediaType == "movie"
    ensures DeleteFromJellyseerr(item) in r <==> services.jellyseerr
  {
    (if services.sonarr && rule.mediaType == "show" then [DeleteFromSonarr(item)] else [])
    + (if services.radarr && rule.mediaType == "movie" then [DeleteFromRadarr(item)] else [])
    + (if services.jellyseerr then [DeleteFromJellyseerr(item)] else [])
  }

  /** `deleteItem(item, rule, externalServices)`; the calls in `failing` fail. The Jellyfin delete
      and the history insert rethrow their errors, the other calls swallow them, and the Discord
      notification is sent only when Discord is enabled. */
  function DeleteItem(item: FoundItem, rule: RuleRow, services: ExternalServices, failing: set<Call>): (a: Attempt)
    ensures |a.calls| >= 1 && a.calls[0] == DeleteFromJellyfin(item)
    ensures DeleteFromJellyfin(item) in failing ==> a == Attempt([DeleteFromJellyfin(item)], false)
    ensures a.ok <==> DeleteFromJellyfin(item) !in failing && RecordDeletion(item, rule.id) !in failing
  {
    var jellyfin := DeleteFromJellyfin(item);
    if jellyfin in failing then Attempt([jellyfin], false)
    else
      var record := RecordDeletion(item, rule.id);
      var before := [jellyfin] + ServiceCalls(item, rule, services) + [record];
      if record in failing then Attempt(before, false)
      else Attempt(before + if services.discord then [NotifyDeletion(item, rule.ruleName)] else [], true)
  }

  /** Which services a deletion reaches: once the media server has deleted the item, Sonarr only
      for an enabled 'show' rule, Radarr only for an enabled 'movie' rule, Jellyseerr whenever
      enabled, then the history insert after all of them, then Discord when enabled and the
      insert succeeded. */
  lemma DeleteItemSelection(item: FoundItem, rule: RuleRow, services: ExternalServices, failing: set<Call>)
    ensures var a := DeleteItem(item, rule, services, failing);
            var reached := DeleteFromJellyfin(item) !in failing;
            && (DeleteFromSonarr(item) in a.calls <==> reached && services.sonarr && rule.mediaType == "show")
            && (DeleteFromRadarr(item) in a.calls <==> reached && services.radarr && rule.mediaType == "movie")
            && (DeleteFromJellyseerr(item) in a.calls <==> reached && services.jellyseerr)
            && (RecordDeletion(item, rule.id) in a.calls <==> reached)
            && (NotifyDeletion(item, rule.ruleName) in a.calls <==> a.ok && services.discord)
  {
    var a := DeleteItem(item, rule, services, failing);
    var record := RecordDeletion(item, rule.id);
    if DeleteFromJellyfin(item) !in failing {
      var before := [DeleteFromJellyfin(item)] + ServiceCalls(item, rule, services) + [record];
      assert before[|before| - 1] == record;
      assert forall c :: c in a.calls && c.NotifyDeletion? ==> c == NotifyDeletion(item, rule.ruleName) && a.ok && services.discord;
    }
  }

  /** In `calls`, every history insert comes after every external delete. */
  predicate RecordsAfterServices(calls: seq<Call>)
  {
    forall i, j :: 0 <= i < |calls| && 0 <= j < |calls| && ServiceDelete(calls[i]) && calls[j].RecordDeletion? ==> i < j
  }

  lemma RecordsAfterServicesBefore(first: Call, mid: seq<Call>, record: Call)
    requires !ServiceDelete(first) && !first.RecordDeletion? && !ServiceDelete(record)
    requires forall c :: c in mid ==> ServiceDelete(c)
    ensures RecordsAfterServices([first] + mid + [record])
  {
    var s := [first] + mid + [record];
    assert s[0] == first;
    assert forall k :: 1 <= k < |s| - 1 ==> s[k] == mid[k - 1] && s[k] in mid;
    assert forall k :: 0 <= k < |s| - 1 ==> !s[k].RecordDeletion?;
  }

  lemma RecordsAfterServicesAppend(s: seq<Call>, tail: seq<Call>)
    requires RecordsAfterServices(s)
    requires forall c :: c in tail ==> !ServiceDelete(c) && !c.RecordDeletion?
    ensures RecordsAfterServices(s + tail)
  {
    var r := s + tail;
    assert forall j :: |s| <= j < |r| ==> r[j] == tail[j - |s|];
  }

  /** The history insert comes after every external delete. */
  lemma DeleteItemRecordsLast(item: FoundItem, rule: RuleRow, services: ExternalServices, failing: set<Call>)
    ensures RecordsAfterServices(DeleteItem(item, rule, services, failing).calls)
  {
    if DeleteFromJellyfin(item) !in failing {
      var record := RecordDeletion(item, rule.id);
      RecordsAfterServicesBefore(DeleteFromJellyfin(item), ServiceCalls(item, rule, services), record);
      RecordsAfterServicesAppend([DeleteFromJellyfin(item)] + ServiceCalls(item, rule, services) + [record],
                                 if services.discord then [NotifyDeletion(item, rule.ruleName)] else []);
    }
  }

  /** Errors of the external services and of Discord do not change what `deleteItem` does. */
  lemma DeleteItemSwallows(item: FoundItem, rule: RuleRow, services: ExternalServices, failing: set<Call>, swallowed: set<Call>)
    requires forall c :: c in swallowed ==> c != DeleteFromJellyfin(item) && c != RecordDeletion(item, rule.id)
    ensures DeleteItem(item, rule, services, failing + swallowed) == DeleteItem(item, rule, services, failing)
  {
  }

  /** `sendDeletionWarning`: nothing unless Discord is enabled; its errors are swallowed. */
  function WarnCalls(item: FoundItem, rule: RuleRow, days: int, services: ExternalServices): seq<Call>
  {
    if services.discord then [WarnDeletion(item, rule.ruleName, days)] else []
  }

  /** What processing one item calls: nothing in a dry run, `deleteItem` in the delete range and
      the warning in the warning range when live. */
  function ItemCalls(item: FoundItem, rule: RuleRow, dryRun: bool, services: ExternalServices, failing: set<Call>): Attempt
  {
    var d := DaysUntilDeletion(item, rule);
    if dryRun then Attempt([], true)
    else if d <= 0 then DeleteItem(item, rule, services, failing)
    else if d <= rule.warningDays then Attempt(WarnCalls(item, rule, d, services), true)
    else Attempt([], true)
  }

  /** The first `n` items processed in order, stopping at the first one that throws. */
  function Run(items: seq<FoundItem>, rule: RuleRow, dryRun: bool, services: ExternalServices, failing: set<Call>, n: nat): Attempt
    requires n <= |items|
  {
    if n == 0 then Attempt([], true)
    else
      var p := Run(items, rule, dryRun, services, failing, n - 1);
      if !p.ok then p
      else
        var s := ItemCalls(items[n - 1], rule, dryRun, services, failing);
        Attempt(p.calls + s.calls, s.ok)
  }

  datatype Mode = DryRun | Live

  function ModeText(m: Mode): string
  {
    match m
    case DryRun => "dry_run"
    case Live => "live"
  }

  datatype Action = WouldDelete | Deleted | WouldWarn | Warned

  function ActionText(a: Action): string
  {
    match a
    case WouldDelete => "would_delete"
    case Deleted => "deleted"
    case WouldWarn => "would_warn"
    case Warned => "warned"
  }

  datatype ProcessedEntry = ProcessedEntry(title: string, action: Action, daysSinceWatched: int)
  datatype WarningEntry = WarningEntry(title: string, daysUntilDeletion: int, action: Action)
  datatype RuleResult = RuleResult(ruleName: string, processed: seq<ProcessedEntry>, warnings: seq<WarningEntry>)
  datatype Report = Report(mode: Mode, results: seq<RuleResult>)

  /** The `processed` entries after the first `n` items: those in the delete range. */
  function ProcessedUpTo(items: seq<FoundItem>, rule: RuleRow, dryRun: bool, n: nat): seq<ProcessedEntry>
    requires n <= |items|
  {
    if n == 0 then []
    else
      var rest := ProcessedUpTo(items, rule, dryRun, n - 1);
      var item := items[n - 1];
      if DaysUntilDeletion(item, rule) <= 0
      then rest + [ProcessedEntry(item.title, if dryRun then WouldDelete else Deleted, item.daysSinceWatched)]
      else rest
  }

  /** The `warnings` entries after the first `n` items: those in the warning range. */
  function WarningsUpTo(items: seq<FoundItem>, rule: RuleRow, dryRun: bool, n: nat): seq<WarningEntry>
    requires n <= |items|
  {
    if n == 0 then []
    else
      var rest := WarningsUpTo(items, rule, dryRun, n - 1);
      var item := items[n - 1];
      var d := DaysUntilDeletion(item, rule);
      if 0 < d <= rule.warningDays
      then rest + [WarningEntry(item.title, d, if dryRun then WouldWarn else Warned)]
      else rest
  }

  function RuleResultOf(rule: RuleRow, items: seq<FoundItem>, dryRun: bool): RuleResult
  {
    RuleResult(rule.ruleName, ProcessedUpTo(items, rule, dryRun, |items|), WarningsUpTo(items, rule, dryRun, |items|))
  }

  /** The inner loop of `processRules` over one rule's items. */
  method ProcessItems(items: seq<FoundItem>, rule: RuleRow, dryRun: bool, services: ExternalServices, failing: set<Call>)
    returns (result: RuleResult, calls: seq<Call>, ok: bool)
    ensures Attempt(calls, ok) == Run(items, rule, dryRun, services, failing, |items|)
    ensures ok ==> result == RuleResultOf(rule, items, dryRun)
  {
    var processed: seq<ProcessedEntry> := [];
    var warnings: seq<WarningEntry> := [];
    calls, ok := [], true;
    var i := 0;
    while i < |items|
      invariant i <= |items|
      invariant ok && Attempt(calls, ok) == Run(items, rule, dryRun, services, failing, i)
      invariant processed == ProcessedUpTo(items, rule, dryRun, i)
      invariant warnings == WarningsUpTo(items, rule, dryRun, i)
    {
      var item := items[i];
      var d := DaysUntilDeletion(item, rule);
      if d <= 0 {
        if !dryRun {
          var a := DeleteItem(item, rule, services, failing);
          calls, ok := calls + a.calls, a.ok;
          if !ok {
            break;
          }
        }
        processed := processed + [ProcessedEntry(item.title, if dryRun then WouldDelete else Deleted, item.daysSinceWatched)];
      } else if d <= rule.warningDays {
        if !dryRun {
          calls := calls + WarnCalls(item, rule, d, services);
        }
        warnings := warnings + [WarningEntry(item.title, d, if dryRun then WouldWarn else Warned)];
      }
      i := i + 1;
    }
    if !ok {
      RunStopped(items, rule, dryRun, services, failing, i + 1);
    }
    result := RuleResult(rule.ruleName, processed, warnings);
  }

  /** Once a run has stopped it stays stopped, with the same calls. */
  lemma {:induction false} RunStopped(items: seq<FoundItem>, rule: RuleRow, dryRun: bool, services: ExternalServices, failing: set<Call>, n: nat)
    requires 1 <= n <= |items|
    requires !Run(items, rule, dryRun, services, failing, n).ok
    ensures Run(items, rule, dryRun, services, failing, |items|) == Run(items, rule, dryRun, services, failing, n)
    decreases |items| - n
  {
    if n < |items| {
      RunStopped(items, rule, dryRun, services, failing, n + 1);
    }
  }

  /** Progress of the outer loop: the results pushed so far, the calls made, and whether it is
      still running (false: a delete threw, and `processRules` rethrows). */
  datatype Progress = Progress(results: seq<RuleResult>, calls: seq<Call>, ok: bool)

  /** The first `n` listed rules processed in order; a disabled rule is skipped entirely. */
  function RulesRun(rules: seq<ListedRule>, found: Finders, dryRun: bool, services: ExternalServices, failing: set<Call>, n: nat): Progress
    requires n <= |rules|
  {
    if n == 0 then Progress([], [], true)
    else
      var p := RulesRun(rules, found, dryRun, services, failing, n - 1);
      var rule := rules[n - 1].row;
      if !p.ok || !Enabled(rule) then p
      else
        var items := FindItemsForDeletion(rule, found);
        var a := Run(items, rule, dryRun, services, failing, |items|);
        Progress(if a.ok then p.results + [RuleResultOf(rule, items, dryRun)] else p.results, p.calls + a.calls, a.ok)
  }

  /** `processRules(dryRun)`: None when it throws. `parsed` is the outcome of
      `JSON.parse(config.external_services || '{}')`, None when the parse throws, which happens
      before the first rule. */
  method ProcessRules(rules: seq<ListedRule>, found: Finders, dryRun: bool, parsed: Option<ExternalServices>, failing: set<Call>)
    returns (report: Option<Report>, calls: seq<Call>)
    ensures parsed.None? ==> report.None? && calls == []
    ensures parsed.Some? ==>
              var p := RulesRun(rules, found, dryRun, parsed.value, failing, |rules|);
              && calls == p.calls
              && (report.Some? <==> p.ok)
              && (report.Some? ==> report.value == Report(if dryRun then DryRun else Live, p.results))
  {
    if parsed.None? {
      return None, [];
    }
    var services := parsed.value;
    var results: seq<RuleResult> := [];
    calls := [];
    var ok := true;
    var i := 0;
    while i < |rules|
      invariant i <= |rules|
      invariant Progress(results, calls, ok) == RulesRun(rules, found, dryRun, services, failing, i)
      invariant ok
    {
      var rule := rules[i].row;
      if Enabled(rule) {
        var items := FindItemsForDeletion(rule, found);
        var result, ruleCalls;
        result, ruleCalls, ok := ProcessItems(items, rule, dryRun, services, failing);
        calls := calls + ruleCalls;
        if !ok {
          break;
        }
        results := results + [result];
      }
      i := i + 1;
    }
    if ok {
      report := Some(Report(if dryRun then DryRun else Live, results));
    } else {
      RulesRunStopped(rules, found, dryRun, services, failing, i + 1);
      report := None;
    }
  }

  /** Once the outer loop has stopped it stays stopped. */
  lemma {:induction false} RulesRunStopped(rules: seq<ListedRule>, found: Finders, dryRun: bool, services: ExternalServices, failing: set<Call>, n: nat)
    requires 1 <= n <= |rules|
    requires !RulesRun(rules, found, dryRun, services, failing, n).ok
    ensures RulesRun(rules, found, dryRun, services, failing, |rules|) == RulesRun(rules, found, dryRun, services, failing, n)
    decreases |rules| - n
  {
    if n < |rules| {
      RulesRunStopped(rules, found, dryRun, services, failing, n + 1);
    }
  }

  // ---- Properties

  /** A dry run of one rule's items calls nothing and cannot throw. */
  lemma {:induction false} DryRunItemsCallNothing(items: seq<FoundItem>, rule: RuleRow, services: ExternalServices, failing: set<Call>, n: nat)
    requires n <= |items|
    ensures Run(items, rule, true, services, failing, n) == Attempt([], true)
  {
    if n > 0 {
      DryRunItemsCallNothing(items, rule, services, failing, n - 1);
    }
  }

  /** A dry run makes no outside call at all and always produces its report. */
  lemma {:induction false} DryRunCallsNothing(rules: seq<ListedRule>, found: Finders, services: ExternalServices, failing: set<Call>, n: nat)
    requires n <= |rules|
    ensures RulesRun(rules, found, true, services, failing, n).calls == []
    ensures RulesRun(rules, found, true, services, failing, n).ok
  {
    if n > 0 {
      DryRunCallsNothing(rules, found, services, failing, n - 1);
      var items := FindItemsForDeletion(rules[n - 1].row, found);
      DryRunItemsCallNothing(items, rules[n - 1].row, services, failing, |items|);
    }
  }

  /** The results of the enabled rules among the first `n`, in order: a reference definition that
      does not depend on the outside calls. */
  function EnabledResults(rules: seq<ListedRule>, found: Finders, dryRun: bool, n: nat): seq<RuleResult>
    requires n <= |rules|
  {
    if n == 0 then []
    else if Enabled(rules[n - 1].row)
    then EnabledResults(rules, found, dryRun, n - 1) + [RuleResultOf(rules[n - 1].row, FindItemsForDeletion(rules[n - 1].row, found), dryRun)]
    else EnabledResults(rules, found, dryRun, n - 1)
  }

  /** A report holds exactly one result per enabled rule, in rule order; disabled rules leave no
      trace in it and make no call. */
  lemma {:induction false} ReportPerEnabledRule(rules: seq<ListedRule>, found: Finders, dryRun: bool, services: ExternalServices, failing: set<Call>, n: nat)
    requires n <= |rules|
    requires RulesRun(rules, found, dryRun, services, failing, n).ok
    ensures RulesRun(rules, found, dryRun, services, failing, n).results == EnabledResults(rules, found, dryRun, n)
  {
    if n > 0 {
      ReportPerEnabledRule(rules, found, dryRun, services, failing, n - 1);
    }
  }

  /** With no enabled rule nothing is called and the report has no results. */
  lemma {:induction false} DisabledRulesSkipped(rules: seq<ListedRule>, found: Finders, dryRun: bool, services: ExternalServices, failing: set<Call>, n: nat)
    requires n <= |rules|
    requires forall i :: 0 <= i < n ==> !Enabled(rules[i].row)
    ensures RulesRun(rules, found, dryRun, services, failing, n) == Progress([], [], true)
  {
    if n > 0 {
      DisabledRulesSkipped(rules, found, dryRun, services, failing, n - 1);
    }
  }

  /** The processed entries are the preview's `to_delete` bucket and the warnings its
      `warning_soon` bucket, item for item; items beyond the window produce no entry. */
  lemma {:induction false} EntriesMatchBuckets(items: seq<FoundItem>, rule: RuleRow, dryRun: bool, n: nat)
    requires n <= |items|
    ensures var processed := ProcessedUpTo(items, rule, dryRun, n);
            var toDelete := InBucket(items, rule, DeleteNow, n);
            |processed| == |toDelete|
            && forall k :: 0 <= k < |processed| ==> processed[k].title == toDelete[k].title && processed[k].daysSinceWatched == toDelete[k].daysSinceWatched
    ensures var warnings := WarningsUpTo(items, rule, dryRun, n);
            var soon := InBucket(items, rule, WarnSoon, n);
            |warnings| == |soon|
            && forall k :: 0 <= k < |warnings| ==> warnings[k].title == soon[k].title && warnings[k].daysUntilDeletion == soon[k].daysUntilDeletion
    ensures |ProcessedUpTo(items, rule, dryRun, n)| + |WarningsUpTo(items, rule, dryRun, n)| + |InBucket(items, rule, Keep, n)| == n
  {
    if n > 0 {
      EntriesMatchBuckets(items, rule, dryRun, n - 1);
      BucketsPartition(items, rule, n);
      BucketsPartition(items, rule, n - 1);
    }
  }

  /** Every entry carries the label of the mode: 'would_delete'/'would_warn' in a dry run,
      'deleted'/'warned' when live. */
  lemma {:induction false} EntryLabels(items: seq<FoundItem>, rule: RuleRow, dryRun: bool, n: nat)
    requires n <= |items|
    ensures forall e :: e in ProcessedUpTo(items, rule, dryRun, n) ==> e.action == (if dryRun then WouldDelete else Deleted)
    ensures forall e :: e in WarningsUpTo(items, rule, dryRun, n) ==> e.action == (if dryRun then WouldWarn else Warned)
  {
    if n > 0 {
      EntryLabels(items, rule, dryRun, n - 1);
    }
  }

  /** For finder output, every item is processed and no warning is given. */
  lemma {:induction false} FoundItemsProcessed(items: seq<FoundItem>, rule: RuleRow, dryRun: bool, n: nat)
    requires n <= |items|
    requires forall i :: 0 <= i < |items| ==> items[i].daysSinceWatched >= rule.daysSinceWatched
    ensures WarningsUpTo(items, rule, dryRun, n) == []
    ensures |ProcessedUpTo(items, rule, dryRun, n)| == n
  {
    if n > 0 {
      FoundItemsProcessed(items, rule, dryRun, n - 1);
    }
  }

  /** With finders that keep only items past the threshold, every rule result has no warnings. */
  lemma {:induction false} ReportHasNoWarnings(rules: seq<ListedRule>, found: Finders, dryRun: bool, n: nat)
    requires n <= |rules|
    requires WithinThreshold(found)
    ensures forall r :: r in EnabledResults(rules, found, dryRun, n) ==> r.warnings == []
  {
    if n > 0 {
      ReportHasNoWarnings(rules, found, dryRun, n - 1);
      var rule := rules[n - 1].row;
      var items := FindItemsForDeletion(rule, found);
      FoundItemsProcessed(items, rule, dryRun, |items|);
    }
  }
}
