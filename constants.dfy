/** The constant tables of src/utils/constants.ts, as maps. A lookup of a key
    the table lacks is `undefined` in the source and `None` here. */
module Constants {
  import opened Common
  import opened Types
  import FindingFilters

  datatype ScanTypeInfo = ScanTypeInfo(labelText: string, description: string)
  datatype StatusStyle = StatusStyle(labelText: string, color: string)

  /** `SCAN_TYPES`. */
  const ScanTypes: map<string, ScanTypeInfo> := map[
    "full" := ScanTypeInfo("Full Scan", "Comprehensive security assessment"),
    "quick" := ScanTypeInfo("Quick Scan", "Fast vulnerability check"),
    "deep" := ScanTypeInfo("Deep Scan", "In-depth analysis"),
    "api" := ScanTypeInfo("API Scan", "API endpoint testing"),
    "web" := ScanTypeInfo("Web Scan", "Web application scan"),
    "mobile" := ScanTypeInfo("Mobile Scan", "Mobile app testing")]

  /** `SCAN_STATUSES`: only three of the six scan statuses have an entry. */
  const ScanStatuses: map<string, StatusStyle> := map[
    "running" := StatusStyle("Running", "text-blue-500"),
    "completed" := StatusStyle("Completed", "text-green-500"),
    "failed" := StatusStyle("Failed", "text-red-500")]

  /** `FINDING_STATUSES`. */
  const FindingStatuses: map<string, StatusStyle> := map[
    "open" := StatusStyle("Open", "text-red-500"),
    "in_progress" := StatusStyle("In Progress", "text-yellow-500"),
    "resolved" := StatusStyle("Resolved", "text-green-500"),
    "false_positive" := StatusStyle("False Positive", "text-muted-foreground")]

  /** `SCAN_STATUSES[status]`: defined exactly for running, completed and failed. */
  function ScanStatusEntry(status: string): (e: Option<StatusStyle>)
    ensures e.Some? <==> status == "running" || status == "completed" || status == "failed"
    ensures e.Some? ==> e.value.labelText in {"Running", "Completed", "Failed"}
  {
    Get(ScanStatuses, status)
  }

  /** The key sets of the three tables. */
  lemma TableDomains()
    ensures ScanTypes.Keys == {"full", "quick", "deep", "api", "web", "mobile"}
    ensures ScanStatuses.Keys == {"running", "completed", "failed"}
    ensures FindingStatuses.Keys == {"open", "in_progress", "resolved", "false_positive"}
  {
  }

  /** Every declared scan type has an entry. */
  lemma EveryScanTypeListed(t: ScanType)
    ensures ScanTypeName(t) in ScanTypes
  {
  }

  /** Of the declared scan statuses, pending, paused and cancelled have no
      entry, so a caller that reads `.labelText` or `.color` of their entry fails. */
  lemma ScanStatusCoverage(s: ScanStatus)
    ensures ScanStatusEntry(StatusName(s)).Some? <==> s == Running || s == Completed || s == Failed
    ensures s == Pending || s == Paused || s == Cancelled ==> ScanStatusEntry(StatusName(s)) == None
  {
  }

  /** Within each table, distinct keys have distinct labels. */
  lemma LabelsDistinct(a: string, b: string)
    requires a != b
    ensures a in ScanTypes && b in ScanTypes ==> ScanTypes[a].labelText != ScanTypes[b].labelText
    ensures a in ScanStatuses && b in ScanStatuses ==> ScanStatuses[a].labelText != ScanStatuses[b].labelText
    ensures a in FindingStatuses && b in FindingStatuses ==> FindingStatuses[a].labelText != FindingStatuses[b].labelText
  {
  }

  /** The statuses the filter panel offers are exactly the keys of `FINDING_STATUSES`. */
  lemma OfferedStatusesAreTableKeys()
    ensures forall s :: s in FindingFilters.OfferedStatuses <==> s in FindingStatuses
  {
  }
}
