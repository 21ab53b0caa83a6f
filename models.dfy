// The enumerations and the records that several services share.
module Models {
  import opened Wrappers
  import opened Json

  /** `UserRole`: "admin" or "user". */
  datatype UserRole = Admin | RegularUser

  function RoleName(r: UserRole): string
  {
    match r
    case Admin => "admin"
    case RegularUser => "user"
  }

  /** `FlowVisibility`: "public" or "private". */
  datatype FlowVisibility = Public | Private

  /** `RunStatus`: the five run statuses the records store. */
  datatype RunStatus = PendingRun | RunningRun | AwaitingInputRun | CompletedRun | FailedRun

  function StatusValue(s: RunStatus): string
  {
    match s
    case PendingRun => "pending"
    case RunningRun => "running"
    case AwaitingInputRun => "awaiting_input"
    case CompletedRun => "completed"
    case FailedRun => "failed"
  }

  /** `RunStatus(v)`: the member whose value is `v`, if any. */
  function ParseRunStatus(v: string): (r: Option<RunStatus>)
    ensures r.Some? ==> StatusValue(r.value) == v
    ensures r.None? ==> forall s: RunStatus :: StatusValue(s) != v
  {
    if v == "pending" then Some(PendingRun)
    else if v == "running" then Some(RunningRun)
    else if v == "awaiting_input" then Some(AwaitingInputRun)
    else if v == "completed" then Some(CompletedRun)
    else if v == "failed" then Some(FailedRun)
    else None
  }

  /** Parsing a member's value gives the member back. */
  lemma ParseStatusValue(s: RunStatus)
    ensures ParseRunStatus(StatusValue(s)) == Some(s)
  {
  }

  /** A row of the users table. */
  datatype UserRecord = UserRecord(id: string, email: string, name: Option<string>, passwordHash: string, role: UserRole)

  /** A row of the flows table. */
  datatype FlowRecord = FlowRecord(id: string, key: string, name: string, description: Option<string>,
                                   config: Dict, visibility: FlowVisibility, createdBy: string)

  /** An `HTTPException`: the status code and the detail. */
  datatype HttpError = HttpError(status: int, detail: string)
}
