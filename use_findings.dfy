/** The pure decisions inside the react-query hooks of src/hooks/useFindings.ts:
    the cache keys, the `enabled` gates, the refetch interval of the per-scan
    findings query, and the defaults used while no data has arrived. */
module FindingsQueries {
  import opened Common
  import opened Types

  /** What `refetchInterval` returns: a period in milliseconds, or `false`. */
  datatype RefetchInterval = Every(ms: nat) | Off

  const PollPeriodMs: nat := 3000

  /** The `refetchInterval` callback of `useScanFindings`. It is called with the
      last fetched data, which it ignores: only the status captured when the
      hook ran matters. `scanStatus` is `undefined` when the caller passes none. */
  function ScanFindingsRefetchInterval<D>(scanStatus: Option<string>, data: D): (r: RefetchInterval)
    ensures r.Every? <==> scanStatus == Some("running") || scanStatus == Some("queued")
    ensures r.Every? ==> r.ms == PollPeriodMs
  {
    if scanStatus == Some("running") || scanStatus == Some("queued") then Every(PollPeriodMs) else Off
  }

  /** The interval does not depend on the fetched data. */
  lemma RefetchIgnoresData<D>(scanStatus: Option<string>, d1: D, d2: D)
    ensures ScanFindingsRefetchInterval(scanStatus, d1) == ScanFindingsRefetchInterval(scanStatus, d2)
  {
  }

  /** Over the declared scan statuses only `running` polls. `queued`, which is
      also polled, is not one of them; `pending` is, and is not polled. */
  lemma PollingByDeclaredStatus<D>(s: ScanStatus, data: D)
    ensures ScanFindingsRefetchInterval(Some(StatusName(s)), data).Every? <==> s == Running
    ensures forall t: ScanStatus :: StatusName(t) != "queued"
  {
  }

  /** Terminal statuses stop polling, and so does an unknown status. */
  lemma TerminalStopsPolling<D>(data: D)
    ensures ScanFindingsRefetchInterval(Some("completed"), data) == Off
    ensures ScanFindingsRefetchInterval(Some("failed"), data) == Off
    ensures ScanFindingsRefetchInterval(None, data) == Off
  {
  }

  /** `enabled: !!jobId` for `useScanFindings`. */
  function ScanFindingsEnabled(jobId: Option<string>): (enabled: bool)
    ensures enabled ==> jobId.Some? && |jobId.value| > 0
    ensures jobId.Some? && jobId.value != "" ==> enabled
  {
    TruthyString(jobId)
  }

  /** `enabled: !!findingId` for `useFinding`: id 0 is as good as no id. */
  function FindingEnabled(findingId: Option<int>): (enabled: bool)
    ensures enabled ==> findingId.Some? && findingId.value != 0
    ensures findingId.Some? && findingId.value != 0 ==> enabled
  {
    TruthyNumber(findingId)
  }

  /** A finding with id 0 is never fetched. */
  lemma FindingZeroDisabled()
    ensures !FindingEnabled(Some(0)) && !FindingEnabled(None)
  {
  }

  /** The filters object of `useFindings(filters)`: the three declared
      properties, plus `status`, which the findings page and the dashboard
      pass although the declared type has no such property. */
  datatype FindingFilters = FindingFilters(
    severity: Option<seq<string>>,
    findingType: Option<seq<string>>,
    jobId: Option<string>,
    status: Option<seq<string>>)

  /** One element of a query key; `undefined` is its own element. */
  datatype KeyPart = Text(s: string) | Number(n: int) | Filters(f: FindingFilters) | Undefined

  function OrUndefinedText(o: Option<string>): KeyPart {
    if o.Some? then Text(o.value) else Undefined
  }

  /** `['findings', filters]`. */
  function FindingsKey(filters: Option<FindingFilters>): (key: seq<KeyPart>)
    ensures |key| == 2 && key[0] == Text("findings")
    ensures key[1] == Undefined <==> filters.None?
    ensures filters.Some? ==> key[1] == Filters(filters.value)
  {
    [Text("findings"), if filters.Some? then Filters(filters.value) else Undefined]
  }

  /** `['findings', jobId]`. */
  function ScanFindingsKey(jobId: Option<string>): (key: seq<KeyPart>)
    ensures |key| == 2 && key[0] == Text("findings")
    ensures key[1] == Undefined <==> jobId.None?
    ensures jobId.Some? ==> key[1] == Text(jobId.value)
  {
    [Text("findings"), OrUndefinedText(jobId)]
  }

  /** `['finding', findingId]`. */
  function FindingKey(findingId: Option<int>): (key: seq<KeyPart>)
    ensures |key| == 2 && key[0] == Text("finding")
    ensures key[1] == Undefined <==> findingId.None?
    ensures findingId.Some? ==> key[1] == Number(findingId.value)
  {
    [Text("finding"), if findingId.Some? then Number(findingId.value) else Undefined]
  }

  /** Per-scan cache entries are independent: two jobs share an entry exactly
      when they are the same job. */
  lemma ScanFindingsKeyInjective(a: Option<string>, b: Option<string>)
    ensures ScanFindingsKey(a) == ScanFindingsKey(b) <==> a == b
  {
    if ScanFindingsKey(a) == ScanFindingsKey(b) {
      assert ScanFindingsKey(a)[1] == ScanFindingsKey(b)[1];
    }
  }

  /** The two findings hooks share the prefix 'findings': the unfiltered list
      and the per-scan query without a job id use the same cache entry, and no
      other pair of their keys coincides. */
  lemma FindingsKeysOverlap(filters: Option<FindingFilters>, jobId: Option<string>)
    ensures FindingsKey(filters) == ScanFindingsKey(jobId) <==> filters.None? && jobId.None?
  {
    if FindingsKey(filters) == ScanFindingsKey(jobId) {
      assert FindingsKey(filters)[1] == ScanFindingsKey(jobId)[1];
    }
  }

  /** A single-finding key never collides with a findings-list key. */
  lemma FindingKeyDistinct(findingId: Option<int>, filters: Option<FindingFilters>, jobId: Option<string>)
    ensures FindingKey(findingId) != FindingsKey(filters)
    ensures FindingKey(findingId) != ScanFindingsKey(jobId)
  {
    assert FindingKey(findingId)[0] != FindingsKey(filters)[0];
    assert FindingKey(findingId)[0] != ScanFindingsKey(jobId)[0];
  }

  /** `by_severity` of a findings response. */
  datatype SeverityCounts = SeverityCounts(critical: int, high: int, medium: int, low: int)

  /** The body of `GET /scan/{job_id}/findings`. */
  datatype FindingsResponse = FindingsResponse(
    jobId: string, findings: seq<Finding>, total: int, bySeverity: SeverityCounts)

  /** The body the per-scan request can yield: the object the hook reads, or
      the bare list of findings the API wrapper declares. */
  datatype ScanFindingsData = ResponseObject(resp: FindingsResponse) | FindingArray(items: seq<Finding>)

  /** What `useScanFindings` returns. */
  datatype ScanFindingsResult = ScanFindingsResult(
    findings: seq<Finding>, total: int, bySeverity: Option<SeverityCounts>, isLoading: bool)

  /** The return value of `useScanFindings` for the query's current data
      (`None` before the first answer, while disabled, or after an error). An
      array has no `findings`, `total` or `by_severity` property, so a list
      body reads like no data at all, however many findings it holds. */
  function ScanFindingsView(data: Option<ScanFindingsData>, isLoading: bool): (r: ScanFindingsResult)
    ensures data.None? || data.value.FindingArray? ==> r.findings == [] && r.total == 0 && r.bySeverity.None?
    ensures data.Some? && data.value.ResponseObject? ==>
      var resp := data.value.resp;
      r.findings == resp.findings && r.total == resp.total && r.bySeverity == Some(resp.bySeverity)
    ensures r.isLoading == isLoading
  {
    match data
    case Some(ResponseObject(resp)) => ScanFindingsResult(resp.findings, resp.total, Some(resp.bySeverity), isLoading)
    case _ => ScanFindingsResult([], 0, None, isLoading)
  }

  /** Under the declared list body, the hook shows no findings: the view of a
      non-empty list equals the view of no data. */
  lemma ArrayBodyShowsNothing(items: seq<Finding>, isLoading: bool)
    requires items != []
    ensures ScanFindingsView(Some(FindingArray(items)), isLoading) == ScanFindingsView(None, isLoading)
    ensures |ScanFindingsView(Some(FindingArray(items)), isLoading).findings| < |items|
  {
  }

  /** The total is passed through from the server, not counted from the list:
      a response whose total disagrees with its list is shown as it came. */
  lemma TotalNotDerived(f: Finding)
    ensures var r := ScanFindingsView(Some(ResponseObject(FindingsResponse("job", [f], 0, SeverityCounts(0, 0, 0, 0)))), false);
            r.total != |r.findings|
  {
  }

  /** What `useFindings` returns. */
  datatype FindingsResult = FindingsResult(findings: seq<Finding>, isLoading: bool)

  /** The return value of `useFindings`: the list, or `[]` when there is none,
      as after the tolerated 404 (`retry: false` leaves the data absent). */
  function FindingsView(data: Option<seq<Finding>>, isLoading: bool): (r: FindingsResult)
    ensures data.None? ==> r.findings == []
    ensures data.Some? ==> r.findings == data.value
    ensures r.isLoading == isLoading
  {
    FindingsResult(data.GetOr([]), isLoading)
  }
}
