# Scan dashboard client logic, modelled in Dafny

The repository is the web front-end of a security-scanning service: marketing
pages and a dashboard that lists scans, shows their execution logs and
findings, and keeps a login session. Almost all of it is rendering. This
project models the pieces that decide something:

- **Scan store** (`scan_store.dfy`, module `ScanStore`): the zustand store of
  scans. A class `ScanState` with the fields `scans` and `activeScan`, and
  methods for replace, prepend, update-by-id with a property merge
  (`{...scan, ...updates}`), and select. The merge and the list update are
  functions, with lemmas: order and length kept, other ids untouched, an
  unknown id changes nothing, and prepending never deduplicates.
- **Session store** (`auth_store.dfy`, module `AuthStore`): the user, the token
  and the `isAuthenticated` flag, mirrored into `localStorage`. The store
  holds a `LocalStorage` object by reference. `SetAuth` and `ClearAuth` are
  methods proved against the storage functions `StoreAuth` and `ForgetAuth`.
  The lemmas prove what a page reload recovers after each of them.
  `JSON.parse` and `JSON.stringify` are parameters.
- **Findings queries** (`use_findings.dfy`, module `FindingsQueries`): the
  per-scan refetch interval (3000 ms while the status string is `running` or
  `queued`, otherwise off), the `enabled` gates, the cache keys, and the
  defaults returned before data arrives.
- **Filter panel** (`finding_filters.dfy`, module `FindingFilters`): the
  severity and status checkbox toggles (filter out every copy, or append) and
  the status label (`replace('_', ' ')`, first underscore only).
- **Lookup tables** (`severity.dfy` and `constants.dfy`, modules `Severity` and
  `Constants`): the severity colour, icon and badge tables, each with its
  `info` fallback, and the scan-type and status tables as maps with known key
  sets.
- **Execution log view** (`execution_logs.dfy`, module `ExecutionLogs`): the
  two substring classifiers over a log line's action, proved equal to
  first-match priority tables, and the loading / empty / list choice.
- **Scan actions** (`scan_actions.dfy`, module `ScanActions`): the buttons
  offered for each scan status.
- **Showcase animation** (`showcase.dfy`, module `ScanTypesShowcase`): the
  timer step over the list of lit cards, proved to cycle through
  `[0]`, `[0,1]`, …, `[0..5]`, and the per-card active and completed flags.

`common.dfy` holds `Option`, JavaScript truthiness of strings and numbers, and
`String.prototype.includes`. `types.dfy` holds the records of `src/types`.

Two mismatches in the source are kept visible rather than resolved:

- The severity lookups are keyed by lower-case names, but the API's
  `FindingSeverity` values are upper case. The model takes any string, and
  `Severity.UpperCaseFallsBack` shows that every declared severity gets the
  `info` styling.
- The findings poll runs for `queued`, which is not a `ScanStatus`. It does
  not run for `pending`, which is one (`FindingsQueries.PollingByDeclaredStatus`).

The code has no forced final refresh when a scan ends, no handling of
out-of-order responses, no logout on HTTP 401, and no counts derived from the
findings list; the model follows the code. `FindingsQueries.TotalNotDerived`
shows that the total comes straight from the server.

The filter toggles give two laws in place of a simple "toggling twice restores
the list". Checking and then unchecking an unselected value restores the list
exactly. Unchecking and re-checking a selected value of a duplicate-free
selection restores its contents but moves the value to the end
(`FindingFilters.ToggleTwiceFromSelected`, `FindingFilters.ToggleTwiceReorders`).
Every selection the toggles build from `[]` is duplicate-free
(`FindingFilters.ToggleKeepsNoDuplicates`). With duplicates, unchecking removes
every copy and re-checking adds back one.

Two more type mismatches are modelled on both sides:

- The API wrapper declares the per-scan findings body as a list of findings,
  while `useScanFindings` reads `findings`, `total` and `by_severity` off it.
  `FindingsQueries.ScanFindingsView` takes either shape. A list body shows no
  findings, total 0 and no counts (`FindingsQueries.ArrayBodyShowsNothing`).
- The declared findings filter has `severity`, `type` and `job_id`, but the
  findings page and the dashboard also pass `status`. The filter record of
  `FindingsQueries.FindingsKey` carries all four.

## Model

| member | source | states |
|---|---|---|
| ScanStore.ScanState.constructor | src/store/scanStore.ts:14-15 | the store starts with no scans and no active scan |
| ScanStore.ScanState.SetScans | src/store/scanStore.ts:17 | the list is replaced wholesale; the active scan is kept |
| ScanStore.ScanState.AddScan | src/store/scanStore.ts:19 | the new list is the scan followed by the old list: one longer, old order kept after index 0; the active scan is kept |
| ScanStore.ScanState.UpdateScan | src/store/scanStore.ts:21-25 | same length; each entry with the id is merged with the updates, every other entry is unchanged; the active scan is not refreshed |
| ScanStore.ScanState.SetActiveScan | src/store/scanStore.ts:27 | only the active scan changes |
| ScanStore.UpdateMatching | src/store/scanStore.ts:22-24 | mapping over the list keeps its length |
| ScanStore.UpdateMatchingAt | src/store/scanStore.ts:22-24 | position by position, matching entries are merged and the rest are kept in place |
| ScanStore.UpdateAbsentId | src/store/scanStore.ts:21-25 | updating an id no entry has is the identity on the list |
| ScanStore.AddExistingIdDuplicates | src/store/scanStore.ts:19 | adding a scan whose id is already listed leaves at least two entries with that id |
| ScanStore.Merge | src/store/scanStore.ts:23 | spreading updates into a scan is the same as spreading them over the scan's own properties: each property the updates carry wins, every other is kept |
| ScanStore.MergeNoChange | src/store/scanStore.ts:23 | merging the empty partial changes nothing |
| ScanStore.MergeWholeScan | src/store/scanStore.ts:23 | merging a whole scan yields that scan, provided it has every optional property the old entry had |
| ScanStore.MergeTwice | src/store/scanStore.ts:23 | two merges in a row equal one merge of the combined partial, later properties winning |
| ScanStore.MergeIdempotent | src/store/scanStore.ts:23 | merging the same partial twice is merging it once |
| AuthStore.InitializeUser | src/store/authStore.ts:13-23 | no stored user gives null; a user comes only from a successful parse of a non-empty stored string; a failed parse gives null |
| AuthStore.InitialSession | src/store/authStore.ts:25-28 | the token is the stored token; the flag is set iff the stored token is a non-empty string; the flag implies a token |
| AuthStore.StoreAuth | src/store/authStore.ts:31-32 | after setAuth's writes, getItem returns the token and the serialised user, and the same as before for every other key |
| AuthStore.ForgetAuth | src/store/authStore.ts:37-38 | after clearAuth's writes, getItem returns null for both session keys and the same as before for every other key |
| AuthStore.StoreAuthFrame | src/store/authStore.ts:31-32 | setAuth's storage writes set the token and the serialised user and leave every other key unchanged |
| AuthStore.ForgetAuthFrame | src/store/authStore.ts:37-38 | clearAuth's storage writes remove exactly the two session keys, and are idempotent |
| AuthStore.ReloadAfterSetAuth | src/store/authStore.ts:13-33 | a reload after setAuth restores the user and token when parse inverts stringify; the flag is restored only for a non-empty token |
| AuthStore.ReloadAfterClearAuth | src/store/authStore.ts:13-39 | a reload after clearAuth starts logged out, whatever was stored |
| AuthStore.AuthState.constructor | src/store/authStore.ts:25-28 | the store starts in the state read from storage, which keeps the invariant |
| AuthStore.AuthState.SetAuth | src/store/authStore.ts:30-34 | storage gets both keys and nothing else changes; user and token are set, the flag is true, and the invariant holds |
| AuthStore.AuthState.ClearAuth | src/store/authStore.ts:36-40 | storage loses both keys; the state is logged out from any prior state; the invariant holds |
| FindingsQueries.ScanFindingsRefetchInterval | src/hooks/useFindings.ts:36-42 | the interval is 3000 ms iff the status is running or queued, and off for every other value including undefined |
| FindingsQueries.RefetchIgnoresData | src/hooks/useFindings.ts:36-42 | the interval does not depend on the fetched data |
| FindingsQueries.PollingByDeclaredStatus | src/hooks/useFindings.ts:39-41 | of the declared scan statuses only running polls; queued is not a declared status |
| FindingsQueries.TerminalStopsPolling | src/hooks/useFindings.ts:39-41 | completed, failed and an absent status all give no polling |
| FindingsQueries.ScanFindingsEnabled | src/hooks/useFindings.ts:35 | the per-scan query runs iff the job id is present and non-empty |
| FindingsQueries.FindingEnabled | src/hooks/useFindings.ts:60 | the single-finding query runs iff the id is present and non-zero |
| FindingsQueries.FindingZeroDisabled | src/hooks/useFindings.ts:60 | id 0 and an absent id never fetch |
| FindingsQueries.FindingsKey | src/hooks/useFindings.ts:11 | a two-part key under 'findings' whose second part is the filters, undefined exactly when no filters are given |
| FindingsQueries.ScanFindingsKey | src/hooks/useFindings.ts:33 | a two-part key under 'findings' whose second part is the job id, undefined exactly when none is given |
| FindingsQueries.FindingKey | src/hooks/useFindings.ts:58 | a two-part key under 'finding' whose second part is the id, undefined exactly when none is given |
| FindingsQueries.ScanFindingsKeyInjective | src/hooks/useFindings.ts:33 | two jobs share a cache entry iff they are the same job |
| FindingsQueries.FindingsKeysOverlap | src/hooks/useFindings.ts:11-33 | the unfiltered list and the per-scan query share a key exactly when both arguments are undefined |
| FindingsQueries.FindingKeyDistinct | src/hooks/useFindings.ts:58 | a single-finding key never equals a findings-list key |
| FindingsQueries.ScanFindingsView | src/hooks/useFindings.ts:45-50 | without data or with a list body: no findings, total 0, no counts; with a response object: its findings, total and counts |
| FindingsQueries.ArrayBodyShowsNothing | src/hooks/useFindings.ts:45-50 | a non-empty list body, the shape the API wrapper declares, is shown like no data |
| FindingsQueries.TotalNotDerived | src/hooks/useFindings.ts:47 | the total is passed through and may disagree with the list length |
| FindingsQueries.FindingsView | src/hooks/useFindings.ts:22-25 | without data (as after the tolerated 404) the list is empty; otherwise it is the data |
| FindingFilters.OfferedListsDistinct | src/components/Findings/FindingFilters.tsx:13-14 | five distinct severities and four distinct statuses are offered |
| FindingFilters.RemoveAll | src/components/Findings/FindingFilters.tsx:24 | the filtered list holds exactly the old elements other than the value |
| FindingFilters.RemoveAllAbsent | src/components/Findings/FindingFilters.tsx:24 | filtering out an absent value is the identity |
| FindingFilters.RemoveAllAppend | src/components/Findings/FindingFilters.tsx:24 | filtering distributes over concatenation, so the kept elements stay in order |
| FindingFilters.RemoveAllMultiset | src/components/Findings/FindingFilters.tsx:24 | every copy of the value is removed and every other element is kept |
| FindingFilters.Toggle | src/components/Findings/FindingFilters.tsx:22-36 | membership of the toggled value flips; membership of every other value is unchanged |
| FindingFilters.ToggleSeverity | src/components/Findings/FindingFilters.tsx:22-28 | the toggled severity's membership flips, and a selection of offered severities stays one |
| FindingFilters.ToggleStatus | src/components/Findings/FindingFilters.tsx:30-36 | the toggled status's membership flips, and a selection of offered statuses stays one |
| FindingFilters.ToggleShape | src/components/Findings/FindingFilters.tsx:22-36 | toggling a selected value removes all its copies; toggling another appends it after the unchanged list |
| FindingFilters.ToggleTwiceFromUnselected | src/components/Findings/FindingFilters.tsx:22-36 | checking then unchecking an unselected value restores the list exactly |
| FindingFilters.ToggleTwiceFromSelected | src/components/Findings/FindingFilters.tsx:22-36 | for a duplicate-free list, unchecking then re-checking restores its contents with the value moved to the end |
| FindingFilters.ToggleTwiceReorders | src/components/Findings/FindingFilters.tsx:22-28 | unchecking and re-checking the first of two severities changes the order |
| FindingFilters.ToggleKeepsNoDuplicates | src/components/Findings/FindingFilters.tsx:22-36 | a duplicate-free selection stays duplicate-free |
| FindingFilters.RemoveAllKeepsNoDuplicates | src/components/Findings/FindingFilters.tsx:24 | filtering keeps a list duplicate-free |
| FindingFilters.ReplaceFirst | src/components/Findings/FindingFilters.tsx:76 | the rewritten label has the status's length |
| FindingFilters.ReplaceFirstAbsent | src/components/Findings/FindingFilters.tsx:76 | a status without an underscore is its own label |
| FindingFilters.ReplaceFirstAt | src/components/Findings/FindingFilters.tsx:76 | only the character at the first underscore is replaced |
| FindingFilters.StatusLabel | src/components/Findings/FindingFilters.tsx:76 | a status without an underscore is its own label; otherwise the first underscore becomes a space and every other character is kept |
| FindingFilters.LabelAt | src/components/Findings/FindingFilters.tsx:76 | the label of a status whose first underscore is at k has a space at k and is otherwise the status |
| FindingFilters.UnderscoreLabel | src/components/Findings/FindingFilters.tsx:76 | prefix_suffix is labelled prefix suffix when the prefix has no underscore |
| FindingFilters.UnderscoreStatusLabels | src/components/Findings/FindingFilters.tsx:76 | in_progress and false_positive are labelled in progress and false positive |
| FindingFilters.InProgressLabel | src/components/Findings/FindingFilters.tsx:76 | in_progress is labelled in progress |
| FindingFilters.FalsePositiveLabel | src/components/Findings/FindingFilters.tsx:76 | false_positive is labelled false positive |
| FindingFilters.PlainStatusLabels | src/components/Findings/FindingFilters.tsx:76 | open and resolved are their own labels |
| FindingFilters.SecondUnderscoreKept | src/components/Findings/FindingFilters.tsx:76 | a second underscore survives |
| Severity.ClassOrInfo | src/utils/severity.ts:12 | the table's entry when it is present and non-empty; the info entry when the key is absent or its entry is empty |
| Severity.SeverityColor | src/utils/severity.ts:4-13 | each of the five lower-case severities gets its entry; every other string gets the info entry |
| Severity.SeverityIcon | src/utils/severity.ts:15-24 | each of the five severities gets its icon; every other string gets Info |
| Severity.SeverityBadgeColor | src/utils/severity.ts:26-35 | each of the five severities gets its badge entry; every other string gets the info entry |
| Severity.IconTable | src/utils/severity.ts:16-23 | critical, high and medium have distinct icons; low, info and unknown input share Info |
| Severity.UpperCaseFallsBack | src/utils/severity.ts:4-34 | the upper-case API severities all get the info colour, badge and icon |
| Severity.ColorsDistinct | src/utils/severity.ts:5-33 | distinct severities get distinct colours and badges |
| Severity.BadgeSwapsTextColor | src/utils/severity.ts:5-33 | for every input, colour and badge are the same two classes in swapped order |
| Constants.ScanStatusEntry | src/utils/constants.ts:10-14 | a status has an entry iff it is running, completed or failed |
| Constants.TableDomains | src/utils/constants.ts:1-21 | the key sets of the scan-type, scan-status and finding-status tables |
| Constants.EveryScanTypeListed | src/utils/constants.ts:1-8 | every declared scan type has an entry |
| Constants.ScanStatusCoverage | src/utils/constants.ts:10-14 | pending, paused and cancelled have no entry |
| Constants.LabelsDistinct | src/utils/constants.ts:1-21 | within each table, distinct keys have distinct labels |
| Constants.OfferedStatusesAreTableKeys | src/utils/constants.ts:16-21 | the statuses offered by the filter panel are exactly the finding-status keys |
| ExecutionLogs.LogSeverityColor | src/components/Scan/ExecutionLogs.tsx:25-31 | the result is one of five classes, and the gray default iff no severity word occurs |
| ExecutionLogs.ActionColor | src/components/Scan/ExecutionLogs.tsx:33-40 | the result is one of the five classes |
| ExecutionLogs.LogSeverityColorIsPriorityTable | src/components/Scan/ExecutionLogs.tsx:25-31 | the severity classifier equals first-match over CRITICAL, HIGH, MEDIUM, LOW |
| ExecutionLogs.ActionColorIsPriorityTable | src/components/Scan/ExecutionLogs.tsx:33-40 | the action classifier equals first-match over Vulnerability/Found, Spawned/Created, Started/Running, Completed, Failed |
| ExecutionLogs.FirstMatchWins | src/components/Scan/ExecutionLogs.tsx:25-40 | the earliest matching rule decides |
| ExecutionLogs.FirstMatchNone | src/components/Scan/ExecutionLogs.tsx:30 | with no match the default is returned |
| ExecutionLogs.FirstMatchRange | src/components/Scan/ExecutionLogs.tsx:25-40 | the result is a rule's class or the default |
| ExecutionLogs.StartedBeatsCompleted | src/components/Scan/ExecutionLogs.tsx:36-37 | an action containing both Started and Completed is blue |
| ExecutionLogs.SeverityCaseSensitive | src/components/Scan/ExecutionLogs.tsx:26-30 | a lower-case severity word gets the default |
| ExecutionLogs.ActionCaseSensitive | src/components/Scan/ExecutionLogs.tsx:34-39 | a lower-case action word gets the default |
| ExecutionLogs.ChooseView | src/components/Scan/ExecutionLogs.tsx:54-65 | loading with no logs shows loading; not loading with no logs shows the empty message; any logs are listed in order |
| ExecutionLogs.LinesShownWhileLoading | src/components/Scan/ExecutionLogs.tsx:54-65 | non-empty logs are listed whether or not a fetch is loading |
| ScanActions.OfferedActions | src/components/Scan/ScanActions.tsx:15-40 | at most two buttons, and every handler targets this scan's id |
| ScanActions.ActionsByStatus | src/components/Scan/ScanActions.tsx:15-40 | running offers Pause, paused offers Resume, completed offers Restart and View Report without handlers, the rest offer nothing |
| ScanActions.OneGroupAtMost | src/components/Scan/ScanActions.tsx:15-40 | a button with a handler is the only button |
| ScanActions.HandlersMatchStatus | src/components/Scan/ScanActions.tsx:15-27 | a pause handler is offered iff the scan runs; a resume handler iff it is paused |
| ScanTypesShowcase.Step | src/components/ScanTypesShowcase.tsx:55-60 | the step keeps a state a counting prefix of at most six; its new length is one after six, else one more |
| ScanTypesShowcase.StateAfter | src/components/ScanTypesShowcase.tsx:51-60 | every state the timer reaches from [] is a counting prefix, non-empty after the first tick |
| ScanTypesShowcase.StateAfterClosedForm | src/components/ScanTypesShowcase.tsx:51-60 | after t >= 1 ticks the state is [0 .. (t-1) mod 6] |
| ScanTypesShowcase.ReachableStates | src/components/ScanTypesShowcase.tsx:51-60 | every reachable state is [0 .. n-1] with n at most 6 |
| ScanTypesShowcase.Periodic | src/components/ScanTypesShowcase.tsx:55-60 | from the first tick on the state repeats every six ticks |
| ScanTypesShowcase.IsActive | src/components/ScanTypesShowcase.tsx:91 | in a counting prefix, card i is active iff i is below the length |
| ScanTypesShowcase.IsCompleted | src/components/ScanTypesShowcase.tsx:92 | a completed card is active; in a counting prefix, card i is completed iff i is below the length minus one |
| ScanTypesShowcase.CardFlags | src/components/ScanTypesShowcase.tsx:91-92 | in a reachable state card i is active iff i < length, completed iff i < length - 1 |
| ScanTypesShowcase.ExactlyOneScanning | src/components/ScanTypesShowcase.tsx:91-92 | in a non-empty reachable state exactly the last lit card is active and not completed |
| ScanTypesShowcase.Showcase.constructor | src/components/ScanTypesShowcase.tsx:51 | the animation starts with no card lit |
| ScanTypesShowcase.Showcase.Tick | src/components/ScanTypesShowcase.tsx:54-61 | one tick applies the step and keeps the state reachable |

## Left out

- Rendering, styling and the markup of every component, including the CSS
  conflict when a log line gets both an action colour and a severity colour.
- The react-query and zustand libraries themselves: fetching, caching,
  retries, `invalidateQueries`, the timer that runs the refetch interval, and
  subscriptions. Only the values the code hands them are modelled.
- The HTTP wrappers in `src/api` and the server. Responses are inputs.
- `JSON.parse` and `JSON.stringify` are not modelled; they are parameters. So is
  `as User`, which checks nothing at run time.
- AuthStore.InitializeUser: a stored string that parses to a value that is not
  a user is not modelled; the `parse` parameter answers with a user or none.
- ScanStore.ScanUpdate: a partial whose property is present with the value
  `undefined` (which the spread copies) is not modelled; a property is either
  absent or holds a value.
- ScanStore.ScanState.UpdateScan: `progress` and the other numbers are
  integers; floating point and `NaN` are not modelled.
- FindingsQueries.FindingEnabled: `NaN`, which is also falsy, is not modelled.
- Severity.SeverityColor, Severity.SeverityIcon and Severity.SeverityBadgeColor:
  the names inherited from `Object.prototype` (`"toString"` and the like), which
  a JavaScript object lookup also finds, are not modelled.
- The 800 ms `setInterval` and its cleanup, the auto-scroll of the log list,
  relative timestamps, and the clipboard: browser I/O and timing. The
  showcase's ticks are modelled as calls of `Tick`.
- The findings `onError` handler only writes to the console; nothing of it is
  modelled beyond the absent data it leaves.
- ScanActions.OfferedActions: a status outside the six declared ones, such as
  `queued`, cannot be expressed, because a scan's status is the declared union.
  In the source such a status offers no buttons, as `pending` does here.
- `useScans`, `useAuth`, `useStats`, `useAgentGraph` and `useRealtime` are not
  part of this model. Only the store actions they call are modelled.
- Where the filter panel passes lower-case severities that the declared
  upper-case type forbids, and where it imports a `FindingStatus` type that
  `src/types/finding.ts` does not declare, the model takes strings.
