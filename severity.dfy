/** The severity lookups of src/utils/severity.ts. Each is a constant table
    keyed by the lower-case severity names, read with `table[severity] ||
    fallback`. They take any string: the API's `FindingSeverity` values are
    upper case, and every one of them falls through to the `info` entry. */
module Severity {

  /** The icon components the lookups return. */
  datatype Icon = ShieldAlert | AlertTriangle | AlertCircle | Info

  const SeverityNames: set<string> := {"critical", "high", "medium", "low", "info"}

  const TextColors: map<string, string> := map[
    "critical" := "text-red-500 bg-red-500/10",
    "high" := "text-orange-500 bg-orange-500/10",
    "medium" := "text-yellow-500 bg-yellow-500/10",
    "low" := "text-blue-500 bg-blue-500/10",
    "info" := "text-muted-foreground bg-muted"]

  const Icons: map<string, Icon> := map[
    "critical" := ShieldAlert,
    "high" := AlertTriangle,
    "medium" := AlertCircle,
    "low" := Info,
    "info" := Info]

  const BadgeColors: map<string, string> := map[
    "critical" := "bg-red-500/10 text-red-500",
    "high" := "bg-orange-500/10 text-orange-500",
    "medium" := "bg-yellow-500/10 text-yellow-500",
    "low" := "bg-blue-500/10 text-blue-500",
    "info" := "bg-muted text-muted-foreground"]

  /** `table[key] || table.info` for a table of class strings: an absent key
      and an empty entry both fall back. */
  function ClassOrInfo(table: map<string, string>, key: string): (r: string)
    requires "info" in table
    ensures (key in table && r == table[key]) || r == table["info"]
    ensures key in table && table[key] != "" ==> r == table[key]
    ensures key !in table ==> r == table["info"]
    ensures !(key in table && table[key] != "") ==> r == table["info"]
  {
    if key in table && table[key] != "" then table[key] else table["info"]
  }

  /** `getSeverityColor`. */
  function SeverityColor(severity: string): (r: string)
    ensures r in TextColors.Values
    ensures severity in SeverityNames ==> r == TextColors[severity]
    ensures severity !in SeverityNames ==> r == TextColors["info"]
  {
    ClassOrInfo(TextColors, severity)
  }

  /** `getSeverityIcon`: components are always truthy, so only an absent key falls back. */
  function SeverityIcon(severity: string): (r: Icon)
    ensures severity in SeverityNames ==> r == Icons[severity]
    ensures severity !in SeverityNames ==> r == Info
  {
    if severity in Icons then Icons[severity] else Info
  }

  /** `getSeverityBadgeColor`. */
  function SeverityBadgeColor(severity: string): (r: string)
    ensures r in BadgeColors.Values
    ensures severity in SeverityNames ==> r == BadgeColors[severity]
    ensures severity !in SeverityNames ==> r == BadgeColors["info"]
  {
    ClassOrInfo(BadgeColors, severity)
  }

  /** The icon table: a distinct icon for each of the three upper levels,
      and the same icon for low, info and anything else. */
  lemma IconTable(other: string)
    requires other !in SeverityNames
    ensures SeverityIcon("critical") == ShieldAlert
    ensures SeverityIcon("high") == AlertTriangle
    ensures SeverityIcon("medium") == AlertCircle
    ensures SeverityIcon("low") == Info && SeverityIcon("info") == Info && SeverityIcon(other) == Info
  {
  }

  /** The lookups are case-sensitive: the upper-case severities the API
      declares all get the `info` styling and icon. */
  lemma UpperCaseFallsBack(severity: string)
    requires severity in {"CRITICAL", "HIGH", "MEDIUM", "LOW", "INFO"}
    ensures SeverityColor(severity) == "text-muted-foreground bg-muted"
    ensures SeverityBadgeColor(severity) == "bg-muted text-muted-foreground"
    ensures SeverityIcon(severity) == Info
  {
  }

  /** The five severities get five different colours. */
  lemma ColorsDistinct(a: string, b: string)
    requires a in SeverityNames && b in SeverityNames && a != b
    ensures SeverityColor(a) != SeverityColor(b)
    ensures SeverityBadgeColor(a) != SeverityBadgeColor(b)
  {
  }

  /** Class strings `a b` and `b a`. */
  predicate Swapped(color: string, badge: string, text: string, bg: string) {
    color == text + " " + bg && badge == bg + " " + text
  }

  /** The swapped pair of each table row. */
  lemma CriticalSwapped()
    ensures Swapped(SeverityColor("critical"), SeverityBadgeColor("critical"), "text-red-500", "bg-red-500/10")
  {
  }

  lemma HighSwapped()
    ensures Swapped(SeverityColor("high"), SeverityBadgeColor("high"), "text-orange-500", "bg-orange-500/10")
  {
  }

  lemma MediumSwapped()
    ensures Swapped(SeverityColor("medium"), SeverityBadgeColor("medium"), "text-yellow-500", "bg-yellow-500/10")
  {
  }

  lemma LowSwapped()
    ensures Swapped(SeverityColor("low"), SeverityBadgeColor("low"), "text-blue-500", "bg-blue-500/10")
  {
  }

  lemma FallbackSwapped(severity: string)
    requires severity !in {"critical", "high", "medium", "low"}
    ensures Swapped(SeverityColor(severity), SeverityBadgeColor(severity), "text-muted-foreground", "bg-muted")
  {
  }

  /** For every severity, badge and text colour are the same two classes in
      swapped order. */
  lemma BadgeSwapsTextColor(severity: string)
    ensures exists text, bg :: Swapped(SeverityColor(severity), SeverityBadgeColor(severity), text, bg)
  {
    if severity == "critical" {
      CriticalSwapped();
    } else if severity == "high" {
      HighSwapped();
    } else if severity == "medium" {
      MediumSwapped();
    } else if severity == "low" {
      LowSwapped();
    } else {
      FallbackSwapped(severity);
    }
  }
}
