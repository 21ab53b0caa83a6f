// `ensure_run_access`: a run is handed to its owner and to admins; for anybody
// else it does not exist.
module RunAccess {
  import opened Wrappers
  import opened Models
  import opened RunService

  const NotFound := HttpError(404, "Run not found")

  /** Whether a user may see a run. */
  predicate MaySee(run: RunRecord, user: UserRecord)
  {
    run.userId == user.id || user.role == Admin
  }

  /** `ensure_run_access` over the service's runs. */
  function EnsureRunAccess(runId: string, user: UserRecord, store: RunStore): (r: Result<Run, HttpError>)
    reads store, store.runs.Values
    ensures r.Ok? <==> runId in store.runs && MaySee(store.runs[runId].Snap(), user)
    ensures r.Ok? ==> r.value == store.runs[runId]
    ensures r.Err? ==> r.error == NotFound
  {
    match store.GetRun(runId)
    case Err(_) => Err(NotFound)
    case Ok(run) => if run.userId != user.id && user.role != Admin then Err(NotFound) else Ok(run)
  }

  /** A run of somebody else, asked for by a regular user, is refused with exactly the answer a missing run gets. */
  lemma ForeignRunLooksMissing(runId: string, user: UserRecord, store: RunStore, missing: string)
    requires runId in store.runs && store.runs[runId].userId != user.id && user.role == RegularUser
    requires missing !in store.runs
    ensures EnsureRunAccess(runId, user, store) == EnsureRunAccess(missing, user, store)
  {
  }
}
