/** The records of src/types: scans, findings, users and execution-log lines. */
module Types {
  import opened Common

  /** The union type `ScanStatus` of src/types/scan.ts. */
  datatype ScanStatus = Pending | Running | Paused | Completed | Failed | Cancelled

  /** The string literal each status is sent and compared as. */
  function StatusName(s: ScanStatus): string {
    match s
    case Pending => "pending"
    case Running => "running"
    case Paused => "paused"
    case Completed => "completed"
    case Failed => "failed"
    case Cancelled => "cancelled"
  }

  /** The union type `ScanType` of src/types/scan.ts. */
  datatype ScanType = Full | Quick | Deep | Api | Web | Mobile

  function ScanTypeName(t: ScanType): string {
    match t
    case Full => "full"
    case Quick => "quick"
    case Deep => "deep"
    case Api => "api"
    case Web => "web"
    case Mobile => "mobile"
  }

  /** A scan as the client holds it; optional properties are `Option`s. */
  datatype Scan = Scan(
    id: string,
    target: string,
    scanType: ScanType,
    status: ScanStatus,
    progress: int,
    duration: Option<string>,
    startedAt: string,
    completedAt: Option<string>,
    findingsCount: Option<int>)

  /** A finding. Its severity is kept as the raw string the server sends,
      because the declared type (upper case) and the lookup tables (lower case)
      disagree. */
  datatype Finding = Finding(
    id: int,
    title: string,
    severity: string,
    findingType: string,
    description: string,
    affectedUrl: string,
    payload: Option<string>,
    evidence: Option<string>,
    remediation: Option<string>,
    discoveredAt: string,
    discoveredBy: string)

  /** The logged-in user. */
  datatype User = User(id: int, email: string, organizationId: int)

  /** One execution-log line of a scan. */
  datatype LogEntry = LogEntry(timestamp: string, agent: string, action: string, details: string)
}
