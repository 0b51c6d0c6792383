/**
 * The record shapes shared by the server and the client: a policy violation,
 * a stored scan, and the insert shape a caller hands to the store.
 */
module Schema {
  import opened Wrappers

  /** The three severities a violation may carry. */
  datatype Severity = Low | Medium | High

  /** The three states of a scan. */
  datatype Status = Pending | Completed | Failed

  /** The store's clock reading, kept abstract: larger means later. */
  type Timestamp = nat

  datatype PolicyViolation = PolicyViolation(
    category: string,
    description: string,
    severity: Severity,
    resolution: string)

  /** A stored scan; every field is required. */
  datatype Scan = Scan(
    id: nat,
    fileName: string,
    packageName: string,
    sdkVersion: int,
    permissions: seq<string>,
    status: Status,
    policyViolations: seq<PolicyViolation>,
    scannedAt: Timestamp)

  /** A scan without `id` and `scannedAt`, which the store supplies. */
  datatype InsertScan = InsertScan(
    fileName: string,
    packageName: string,
    sdkVersion: int,
    permissions: seq<string>,
    status: Status,
    policyViolations: seq<PolicyViolation>)

  /** The wire spelling of a severity. */
  function SeverityName(severity: Severity): string {
    match severity
    case Low => "low"
    case Medium => "medium"
    case High => "high"
  }

  /** The severity enum check: exactly the three spellings are accepted. */
  function ParseSeverity(s: string): (r: Option<Severity>)
    ensures r.Some? <==> s == "low" || s == "medium" || s == "high"
    ensures r.Some? ==> SeverityName(r.value) == s
  {
    if s == "low" then Some(Low)
    else if s == "medium" then Some(Medium)
    else if s == "high" then Some(High)
    else None
  }

  lemma ParseSeverityName(severity: Severity)
    ensures ParseSeverity(SeverityName(severity)) == Some(severity)
  {
  }

  /** The wire spelling of a status. */
  function StatusName(status: Status): string {
    match status
    case Pending => "pending"
    case Completed => "completed"
    case Failed => "failed"
  }

  /** The status enum check: exactly the three spellings are accepted. */
  function ParseStatus(s: string): (r: Option<Status>)
    ensures r.Some? <==> s == "pending" || s == "completed" || s == "failed"
    ensures r.Some? ==> StatusName(r.value) == s
  {
    if s == "pending" then Some(Pending)
    else if s == "completed" then Some(Completed)
    else if s == "failed" then Some(Failed)
    else None
  }

  lemma ParseStatusName(status: Status)
    ensures ParseStatus(StatusName(status)) == Some(status)
  {
  }

  /** The insert fields of a stored scan. */
  function ToInsert(scan: Scan): InsertScan {
    InsertScan(scan.fileName, scan.packageName, scan.sdkVersion, scan.permissions,
               scan.status, scan.policyViolations)
  }

  /** A stored scan made of the insert fields plus the two the store supplies. */
  function FromInsert(insertScan: InsertScan, id: nat, scannedAt: Timestamp): (scan: Scan)
    ensures ToInsert(scan) == insertScan
    ensures scan.id == id && scan.scannedAt == scannedAt
  {
    Scan(id, insertScan.fileName, insertScan.packageName, insertScan.sdkVersion,
         insertScan.permissions, insertScan.status, insertScan.policyViolations, scannedAt)
  }

  /** A stored scan is determined by its insert fields, its id and its stamp. */
  lemma FromInsertToInsert(scan: Scan)
    ensures FromInsert(ToInsert(scan), scan.id, scan.scannedAt) == scan
  {
  }
}
