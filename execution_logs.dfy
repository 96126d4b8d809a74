/** The decisions inside src/components/Scan/ExecutionLogs.tsx: the two colour
    classifiers applied to each log line's action text, and the choice between
    the loading placeholder, the empty message and the list of lines. */
module ExecutionLogs {
  import opened Common
  import opened Types

  const DefaultColor := "text-gray-300"

  /** `getSeverityColor`: case-sensitive substring tests, first match wins. */
  function LogSeverityColor(action: string): (r: string)
    ensures r in {"text-red-500 font-bold", "text-orange-500 font-semibold", "text-yellow-500", "text-blue-500", DefaultColor}
    ensures r == DefaultColor <==>
      !Contains(action, "CRITICAL") && !Contains(action, "HIGH") && !Contains(action, "MEDIUM") && !Contains(action, "LOW")
  {
    if Contains(action, "CRITICAL") then "text-red-500 font-bold"
    else if Contains(action, "HIGH") then "text-orange-500 font-semibold"
    else if Contains(action, "MEDIUM") then "text-yellow-500"
    else if Contains(action, "LOW") then "text-blue-500"
    else DefaultColor
  }

  /** `getActionColor`: the same shape, with two keywords for most classes. */
  function ActionColor(action: string): (r: string)
    ensures r in {"text-red-400", "text-green-400", "text-blue-400", "text-emerald-400", DefaultColor}
  {
    if Contains(action, "Vulnerability") || Contains(action, "Found") then "text-red-400"
    else if Contains(action, "Spawned") || Contains(action, "Created") then "text-green-400"
    else if Contains(action, "Started") || Contains(action, "Running") then "text-blue-400"
    else if Contains(action, "Completed") then "text-emerald-400"
    else if Contains(action, "Failed") then "text-red-400"
    else DefaultColor
  }

  /** A classification rule: any of its keywords selects its class. */
  datatype Rule = Rule(keywords: seq<string>, cls: string)

  predicate RuleMatches(rule: Rule, action: string) {
    exists i | 0 <= i < |rule.keywords| :: Contains(action, rule.keywords[i])
  }

  /** A rule of one or two keywords matches when one of them is contained. */
  lemma MatchesKeywords(rule: Rule, action: string)
    requires 1 <= |rule.keywords| <= 2
    ensures |rule.keywords| == 1 ==> (RuleMatches(rule, action) <==> Contains(action, rule.keywords[0]))
    ensures |rule.keywords| == 2 ==>
      (RuleMatches(rule, action) <==> Contains(action, rule.keywords[0]) || Contains(action, rule.keywords[1]))
  {
  }

  /** The class of the first rule that matches, or the fallback: the
      reference reading of both classifiers as priority tables. */
  function FirstMatch(rules: seq<Rule>, action: string, fallback: string): string {
    if rules == [] then fallback
    else if RuleMatches(rules[0], action) then rules[0].cls
    else FirstMatch(rules[1..], action, fallback)
  }

  const SeverityRules: seq<Rule> := [
    Rule(["CRITICAL"], "text-red-500 font-bold"),
    Rule(["HIGH"], "text-orange-500 font-semibold"),
    Rule(["MEDIUM"], "text-yellow-500"),
    Rule(["LOW"], "text-blue-500")]

  const ActionRules: seq<Rule> := [
    Rule(["Vulnerability", "Found"], "text-red-400"),
    Rule(["Spawned", "Created"], "text-green-400"),
    Rule(["Started", "Running"], "text-blue-400"),
    Rule(["Completed"], "text-emerald-400"),
    Rule(["Failed"], "text-red-400")]

  /** First match wins: the rule chosen is the earliest one that matches. */
  lemma {:induction false} FirstMatchWins(rules: seq<Rule>, action: string, fallback: string, k: nat)
    requires k < |rules| && RuleMatches(rules[k], action)
    requires forall j :: 0 <= j < k ==> !RuleMatches(rules[j], action)
    ensures FirstMatch(rules, action, fallback) == rules[k].cls
  {
    if k > 0 {
      FirstMatchWins(rules[1..], action, fallback, k - 1);
    }
  }

  /** When no rule matches, the fallback is chosen. */
  lemma {:induction false} FirstMatchNone(rules: seq<Rule>, action: string, fallback: string)
    requires forall j :: 0 <= j < |rules| ==> !RuleMatches(rules[j], action)
    ensures FirstMatch(rules, action, fallback) == fallback
  {
    if rules != [] {
      FirstMatchNone(rules[1..], action, fallback);
    }
  }

  /** The result is always one of the table's classes or the fallback. */
  lemma {:induction false} FirstMatchRange(rules: seq<Rule>, action: string, fallback: string)
    ensures FirstMatch(rules, action, fallback) == fallback
         || exists j :: 0 <= j < |rules| && FirstMatch(rules, action, fallback) == rules[j].cls
  {
    if rules != [] && !RuleMatches(rules[0], action) {
      FirstMatchRange(rules[1..], action, fallback);
      if FirstMatch(rules, action, fallback) != fallback {
        var j :| 0 <= j < |rules[1..]| && FirstMatch(rules, action, fallback) == rules[1..][j].cls;
        assert rules[1..][j] == rules[j + 1];
      }
    }
  }

  /** `getSeverityColor` is the priority table `SeverityRules`. */
  lemma LogSeverityColorIsPriorityTable(action: string)
    ensures LogSeverityColor(action) == FirstMatch(SeverityRules, action, DefaultColor)
  {
    var rules := SeverityRules;
    assert forall j :: 0 <= j < |rules| ==> (RuleMatches(rules[j], action) <==> Contains(action, rules[j].keywords[0])) by {
      forall j | 0 <= j < |rules| ensures RuleMatches(rules[j], action) <==> Contains(action, rules[j].keywords[0]) {
        assert |rules[j].keywords| == 1;
      }
    }
    if Contains(action, "CRITICAL") {
      FirstMatchWins(rules, action, DefaultColor, 0);
    } else if Contains(action, "HIGH") {
      FirstMatchWins(rules, action, DefaultColor, 1);
    } else if Contains(action, "MEDIUM") {
      FirstMatchWins(rules, action, DefaultColor, 2);
    } else if Contains(action, "LOW") {
      FirstMatchWins(rules, action, DefaultColor, 3);
    } else {
      FirstMatchNone(rules, action, DefaultColor);
    }
  }

  /** `getActionColor` is the priority table `ActionRules`. */
  lemma ActionColorIsPriorityTable(action: string)
    ensures ActionColor(action) == FirstMatch(ActionRules, action, DefaultColor)
  {
    var rules := ActionRules;
    MatchesKeywords(rules[0], action);
    MatchesKeywords(rules[1], action);
    MatchesKeywords(rules[2], action);
    MatchesKeywords(rules[3], action);
    MatchesKeywords(rules[4], action);
    if RuleMatches(rules[0], action) {
      FirstMatchWins(rules, action, DefaultColor, 0);
    } else if RuleMatches(rules[1], action) {
      FirstMatchWins(rules, action, DefaultColor, 1);
    } else if RuleMatches(rules[2], action) {
      FirstMatchWins(rules, action, DefaultColor, 2);
    } else if RuleMatches(rules[3], action) {
      FirstMatchWins(rules, action, DefaultColor, 3);
    } else if RuleMatches(rules[4], action) {
      FirstMatchWins(rules, action, DefaultColor, 4);
    } else {
      FirstMatchNone(rules, action, DefaultColor);
    }
  }

  /** Matching is by substring, so an action mentioning both a start and a
      completion is coloured as started, the earlier rule. */
  lemma StartedBeatsCompleted(action: string)
    requires Contains(action, "Started") && Contains(action, "Completed")
    requires !Contains(action, "Vulnerability") && !Contains(action, "Found")
    requires !Contains(action, "Spawned") && !Contains(action, "Created")
    ensures ActionColor(action) == "text-blue-400"
  {
  }

  /** Matching is case-sensitive: a lower-case severity word is not recognised. */
  lemma SeverityCaseSensitive()
    ensures LogSeverityColor("critical finding") == DefaultColor
  {
    var a := "critical finding";
    NotContainsMissingChar(a, "CRITICAL", 0);
    NotContainsMissingChar(a, "HIGH", 0);
    NotContainsMissingChar(a, "MEDIUM", 0);
    NotContainsMissingChar(a, "LOW", 0);
  }

  /** Matching is case-sensitive: a lower-case action word is not recognised. */
  lemma ActionCaseSensitive()
    ensures ActionColor("scan started") == DefaultColor
  {
    var b := "scan started";
    NotContainsMissingChar(b, "Vulnerability", 0);
    NotContainsMissingChar(b, "Found", 0);
    NotContainsMissingChar(b, "Spawned", 0);
    NotContainsMissingChar(b, "Created", 0);
    NotContainsMissingChar(b, "Started", 0);
    NotContainsMissingChar(b, "Running", 0);
    NotContainsMissingChar(b, "Completed", 0);
    NotContainsMissingChar(b, "Failed", 0);
  }

  /** What the card body shows. */
  datatype LogsView = LoadingState | EmptyState | Lines(entries: seq<LogEntry>)

  /** `isLoading && logs.length === 0 ? loading : logs.length === 0 ? empty : list`. */
  function ChooseView(logs: seq<LogEntry>, isLoading: bool): (v: LogsView)
    ensures v.LoadingState? <==> isLoading && |logs| == 0
    ensures v.EmptyState? <==> !isLoading && |logs| == 0
    ensures v.Lines? <==> |logs| > 0
    ensures v.Lines? ==> v.entries == logs
  {
    if isLoading && |logs| == 0 then LoadingState
    else if |logs| == 0 then EmptyState
    else Lines(logs)
  }

  /** Lines already received stay on screen while a refetch is loading. */
  lemma LinesShownWhileLoading(logs: seq<LogEntry>)
    requires |logs| > 0
    ensures ChooseView(logs, true) == ChooseView(logs, false) == Lines(logs)
  {
  }
}
