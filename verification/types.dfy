/** The records the scan service passes around (lib/types.ts), together with
    the wire names of its two enumerations and the small wrapper types the
    other modules use for optional fields and for operations that can fail. */
module Types {

  /** An optional field: `?:` in a TypeScript interface, or `T | undefined`. */
  datatype Option<+T> = None | Some(value: T)

  /** The outcome of an operation that either produces a value or fails. */
  datatype Result<+T, +E> = Success(value: T) | Failure(error: E)

  /** The five severities a finding can carry. */
  datatype Severity = Critical | High | Medium | Low | Info

  /** The string each severity is written as in a finding's JSON. */
  function SeverityName(s: Severity): string {
    match s
    case Critical => "critical"
    case High => "high"
    case Medium => "medium"
    case Low => "low"
    case Info => "info"
  }

  /** The severity a name denotes, if it is one of the five. The string union
      admits exactly the five names and each names exactly one severity. */
  function ParseSeverity(name: string): (r: Option<Severity>)
    ensures forall s :: r == Some(s) <==> SeverityName(s) == name
  {
    if name == "critical" then Some(Critical)
    else if name == "high" then Some(High)
    else if name == "medium" then Some(Medium)
    else if name == "low" then Some(Low)
    else if name == "info" then Some(Info)
    else None
  }

  /** The lifecycle states of a scan job. */
  datatype ScanStatus = Pending | Running | Complete | Error

  function StatusName(s: ScanStatus): string {
    match s
    case Pending => "pending"
    case Running => "running"
    case Complete => "complete"
    case Error => "error"
  }

  /** The status a name denotes, if it is one of the four. */
  function ParseStatus(name: string): (r: Option<ScanStatus>)
    ensures forall s :: r == Some(s) <==> StatusName(s) == name
  {
    if name == "pending" then Some(Pending)
    else if name == "running" then Some(Running)
    else if name == "complete" then Some(Complete)
    else if name == "error" then Some(Error)
    else None
  }

  /** A scanner finding: id, name, severity and matched location are always
      present; description and tags are optional. */
  datatype Finding = Finding(
    id: string,
    name: string,
    description: Option<string>,
    severity: Severity,
    matchedAt: string,
    tags: Option<seq<string>>)

  /** A scan job record. Timestamps are the ISO strings the clock produced. */
  datatype Scan = Scan(
    id: string,
    url: string,
    status: ScanStatus,
    findings: seq<Finding>,
    aiSummary: Option<string>,
    createdAt: string,
    updatedAt: string,
    errorMessage: Option<string>)
}
