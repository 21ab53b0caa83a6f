// The run service: runs are ORM objects whose fields are assigned in place
// before the repository stores them; continuing a paused run, applying a
// partial update, failing a run whose browser session could not be created,
// and recording the session of a run that could.
module RunService {
  import opened Wrappers
  import opened Json
  import opened Models
  import opened EventService
  import FlowRepository

  /** The errors the service raises. */
  datatype RunError =
    | RunNotFound(runId: string)
    | NotAwaitingInput(current: RunStatus)
    | InvalidStatus(value: string)
    | InvalidFlow(flowId: string)
    | FlowAccessDenied(flowId: string)

  function Message(e: RunError): string
  {
    match e
    case RunNotFound(id) => "Run " + id + " not found"
    case NotAwaitingInput(s) => "Run is not awaiting input (current status: " + StatusValue(s) + ")"
    case InvalidStatus(v) => "'" + v + "' is not a valid RunStatus"
    case InvalidFlow(id) => "Flow " + id + " does not exist"
    case FlowAccessDenied(id) => "Access denied to flow " + id
  }

  /** The fields of a run; times are the clock readings the service took. */
  datatype RunRecord = RunRecord(id: string, flowId: string, userId: string, status: RunStatus, error: Option<string>,
                                 resultUri: Option<string>, startedAt: Option<int>, endedAt: Option<int>, updatedAt: Option<int>)

  class Run {
    var id: string
    var flowId: string
    var userId: string
    var status: RunStatus
    var error: Option<string>
    var resultUri: Option<string>
    var startedAt: Option<int>
    var endedAt: Option<int>
    var updatedAt: Option<int>

    function Snap(): RunRecord
      reads this
    {
      RunRecord(id, flowId, userId, status, error, resultUri, startedAt, endedAt, updatedAt)
    }

    /** A new pending run. */
    constructor (id: string, flowId: string, userId: string)
      ensures Snap() == RunRecord(id, flowId, userId, PendingRun, None, None, None, None, None)
    {
      this.id, this.flowId, this.userId := id, flowId, userId;
      status, error, resultUri, startedAt, endedAt, updatedAt := PendingRun, None, None, None, None, None;
    }
  }

  /** The keys an `update_run` request may hold: an absent key is None, a present one carries its value. */
  datatype RunUpdate = RunUpdate(resultUri: Option<Option<string>>, status: Option<string>,
                                 error: Option<Option<string>>, endedAt: Option<Option<int>>)

  /** `update_run` on a run's fields: the present keys are assigned in order, and a status that is not a RunStatus value raises after `result_uri` was assigned; `updated_at` is set last. */
  function UpdateSpec(r: RunRecord, req: RunUpdate, now: int): (res: (RunRecord, Option<RunError>))
    ensures res.1.Some? <==> req.status.Some? && ParseRunStatus(req.status.value).None?
    ensures res.1.Some? ==> res.1.value == InvalidStatus(req.status.value)
    ensures res.1.Some? ==> res.0 == r.(resultUri := if req.resultUri.Some? then req.resultUri.value else r.resultUri)
  {
    var r1 := if req.resultUri.Some? then r.(resultUri := req.resultUri.value) else r;
    if req.status.Some? && ParseRunStatus(req.status.value).None? then (r1, Some(InvalidStatus(req.status.value)))
    else
      var r2 := if req.status.Some? then r1.(status := ParseRunStatus(req.status.value).value) else r1;
      var r3 := if req.error.Some? then r2.(error := req.error.value) else r2;
      var r4 := if req.endedAt.Some? then r3.(endedAt := req.endedAt.value) else r3;
      (r4.(updatedAt := Some(now)), None)
  }

  /** A successful update changes exactly the requested fields and the update time, and nothing else. */
  lemma UpdateChangesOnlyRequested(r: RunRecord, req: RunUpdate, now: int)
    requires UpdateSpec(r, req, now).1.None?
    ensures var s := UpdateSpec(r, req, now).0;
      && s.id == r.id && s.flowId == r.flowId && s.userId == r.userId && s.startedAt == r.startedAt
      && s.updatedAt == Some(now)
      && s.resultUri == (if req.resultUri.Some? then req.resultUri.value else r.resultUri)
      && s.error == (if req.error.Some? then req.error.value else r.error)
      && s.endedAt == (if req.endedAt.Some? then req.endedAt.value else r.endedAt)
      && (req.status.None? ==> s.status == r.status)
      && (req.status.Some? ==> StatusValue(s.status) == req.status.value)
  {
  }

  /** No transition check: any status value is applied over any status, even over a terminal one. */
  lemma UpdateBypassesStateMachine(r: RunRecord, target: RunStatus, now: int)
    ensures UpdateSpec(r, RunUpdate(None, Some(StatusValue(target)), None, None), now) == (r.(status := target, updatedAt := Some(now)), None)
  {
    ParseStatusValue(target);
  }

  /** `_validate_flow_exists_and_access`: the flow must exist, and the user must have created it or be an admin. */
  function ValidateFlowAccess(flowId: string, user: UserRecord, flows: map<string, FlowRecord>): (r: Result<(), RunError>)
    ensures flowId !in flows ==> r == Err(InvalidFlow(flowId))
    ensures flowId in flows ==> (r.Ok? <==> flows[flowId].createdBy == user.id || user.role == Admin)
    ensures r.Err? && flowId in flows ==> r.error == FlowAccessDenied(flowId)
  {
    if flowId !in flows then Err(InvalidFlow(flowId))
    else if flows[flowId].createdBy != user.id && user.role != Admin then Err(FlowAccessDenied(flowId))
    else Ok(())
  }

  /** The visibility of a flow plays no part here: a public flow of someone else is refused to a regular user. */
  lemma PublicFlowNotEnough(f: FlowRecord, user: UserRecord)
    requires f.visibility == Public && f.createdBy != user.id && user.role == RegularUser
    ensures ValidateFlowAccess(f.id, user, map[f.id := f]) == Err(FlowAccessDenied(f.id))
  {
  }

  /** Starting a run needs more than seeing the flow in a listing: a flow the user may start is one the repository lists for them, one they cannot see is refused, and an admin may start every existing flow. */
  lemma RunAccessImpliesListed(flowId: string, user: UserRecord, flows: map<string, FlowRecord>)
    ensures ValidateFlowAccess(flowId, user, flows).Ok? ==> flowId in flows && FlowRepository.Visible(flows[flowId], user)
    ensures flowId in flows && !FlowRepository.Visible(flows[flowId], user) ==> ValidateFlowAccess(flowId, user, flows) == Err(FlowAccessDenied(flowId))
    ensures user.role == Admin ==> (ValidateFlowAccess(flowId, user, flows).Ok? <==> flowId in flows)
  {
  }

  /** A browser session record. */
  datatype SessionStatus = ActiveSession
  datatype SessionRecord = SessionRecord(id: string, runId: string, browserSessionId: string, sessionUrl: string, status: SessionStatus)

  /** A progress message sent on the run's socket channel. */
  datatype Progress = Progress(runId: string, status: RunStatus, message: string)

  const InitializingMessage := "Run created, initializing session"

  /** The service together with the rows it reaches through its repository and session. */
  class RunStore {
    var runs: map<string, Run>
    var sessions: seq<SessionRecord>
    var audit: seq<EventRecord>
    var progress: seq<Progress>

    constructor ()
      ensures runs == map[] && sessions == [] && audit == [] && progress == []
    {
      runs, sessions, audit, progress := map[], [], [], [];
    }

    /** `get_run`. */
    function GetRun(runId: string): (r: Result<Run, RunError>)
      reads this
      ensures r.Ok? <==> runId in runs
      ensures r.Ok? ==> r.value == runs[runId]
      ensures r.Err? ==> r.error == RunNotFound(runId)
    {
      if runId in runs then Ok(runs[runId]) else Err(RunNotFound(runId))
    }

    /** `_create_run_record_with_user`: a pending run owned by the authenticated user, and a pending progress message. */
    method CreateRunRecordWithUser(runId: string, flowId: string, user: UserRecord) returns (run: Run)
      modifies this
      ensures fresh(run) && runs == old(runs)[runId := run]
      ensures run.Snap() == RunRecord(runId, flowId, user.id, PendingRun, None, None, None, None, None)
      ensures progress == old(progress) + [Progress(runId, PendingRun, InitializingMessage)]
      ensures sessions == old(sessions) && audit == old(audit)
    {
      run := new Run(runId, flowId, user.id);
      runs := runs[runId := run];
      progress := progress + [Progress(runId, PendingRun, InitializingMessage)];
    }

    /** `update_run`. */
    method UpdateRun(runId: string, req: RunUpdate, now: int) returns (r: Result<Run, RunError>)
      modifies if runId in runs then {runs[runId]} else {}
      ensures runId !in runs ==> r == Err(RunNotFound(runId))
      ensures runId in runs ==>
        var spec := UpdateSpec(old(runs[runId].Snap()), req, now);
        && runs[runId].Snap() == spec.0
        && (spec.1.Some? ==> r == Err(spec.1.value))
        && (spec.1.None? ==> r == Ok(runs[runId]))
    {
      if runId !in runs {
        return Err(RunNotFound(runId));
      }
      var run := runs[runId];
      if req.resultUri.Some? {
        run.resultUri := req.resultUri.value;
      }
      if req.status.Some? {
        var status := ParseRunStatus(req.status.value);
        if status.None? {
          return Err(InvalidStatus(req.status.value));
        }
        run.status := status.value;
      }
      if req.error.Some? {
        run.error := req.error.value;
      }
      if req.endedAt.Some? {
        run.endedAt := req.endedAt.value;
      }
      run.updatedAt := Some(now);
      r := Ok(run);
    }

    /** `continue_run`: only a run awaiting input continues; it becomes running, and a RUN_CONTINUED audit event is added when input or notes were given. */
    method ContinueRun(runId: string, input: Option<Value>, notes: Option<string>, eventId: string, now: int)
      returns (r: Result<Run, RunError>)
      modifies this, if runId in runs then {runs[runId]} else {}
      ensures runs == old(runs) && sessions == old(sessions) && progress == old(progress)
      ensures runId !in runs ==> r == Err(RunNotFound(runId)) && audit == old(audit)
      ensures runId in runs && old(runs[runId].status) != AwaitingInputRun ==>
        r == Err(NotAwaitingInput(old(runs[runId].status))) && audit == old(audit)
        && runs[runId].Snap() == old(runs[runId].Snap())
      ensures runId in runs && old(runs[runId].status) == AwaitingInputRun ==>
        r == Ok(runs[runId])
        && runs[runId].Snap() == old(runs[runId].Snap()).(status := RunningRun, updatedAt := Some(now))
        && audit == old(audit) + ContinuedEvents(runId, input, notes, eventId)
    {
      if runId !in runs {
        return Err(RunNotFound(runId));
      }
      var run := runs[runId];
      if run.status != AwaitingInputRun {
        return Err(NotAwaitingInput(run.status));
      }
      audit := audit + ContinuedEvents(runId, input, notes, eventId);
      run.status := RunningRun;
      run.updatedAt := Some(now);
      r := Ok(run);
    }

    /** `_handle_session_creation_failure`: a known run fails with the message and its end time, and a failed progress message follows. */
    method HandleSessionCreationFailure(runId: string, message: string, now: int)
      modifies this, if runId in runs then {runs[runId]} else {}
      ensures runs == old(runs) && sessions == old(sessions) && audit == old(audit)
      ensures runId !in runs ==> progress == old(progress)
      ensures runId in runs ==>
        runs[runId].Snap() == old(runs[runId].Snap()).(status := FailedRun, error := Some(message),
                                                        endedAt := Some(now), updatedAt := Some(now))
        && progress == old(progress) + [Progress(runId, FailedRun, message)]
    {
      if runId in runs {
        var run := runs[runId];
        run.status := FailedRun;
        run.error := Some(message);
        run.endedAt := Some(now);
        run.updatedAt := Some(now);
        progress := progress + [Progress(runId, FailedRun, message)];
      }
    }

    /** `_create_session_and_finalize_run`: an active session is recorded in every case, and a known run starts running. */
    method CreateSessionAndFinalizeRun(runId: string, sessionUrl: string, browserSessionId: string, sessionId: string, now: int)
      returns (r: Option<Run>)
      modifies this, if runId in runs then {runs[runId]} else {}
      ensures runs == old(runs) && audit == old(audit) && progress == old(progress)
      ensures sessions == old(sessions) + [SessionRecord(sessionId, runId, browserSessionId, sessionUrl, ActiveSession)]
      ensures runId !in runs ==> r.None?
      ensures runId in runs ==>
        r == Some(runs[runId])
        && runs[runId].Snap() == old(runs[runId].Snap()).(status := RunningRun, startedAt := Some(now), updatedAt := Some(now))
    {
      sessions := sessions + [SessionRecord(sessionId, runId, browserSessionId, sessionUrl, ActiveSession)];
      if runId !in runs {
        return None;
      }
      var run := runs[runId];
      run.status := RunningRun;
      run.startedAt := Some(now);
      run.updatedAt := Some(now);
      r := Some(run);
    }
  }

  /** The audit event of `continue_run`: one RUN_CONTINUED event when input or notes were given, none otherwise. */
  function ContinuedEvents(runId: string, input: Option<Value>, notes: Option<string>, eventId: string): (r: seq<EventRecord>)
    ensures |r| == (if input.Some? || notes.Some? then 1 else 0)
    ensures |r| == 1 ==> r[0].runId == runId && r[0].eventType == RunContinuedEvent && r[0].message == Some("Run continued")
    ensures |r| == 1 ==> r[0].payload.Keys == {"input_payload", "notes"}
  {
    if input.None? && notes.None? then []
    else
      [EventRecord(eventId, runId, RunContinuedEvent, Some("Run continued"),
                   map["input_payload" := input.GetOr(Null), "notes" := if notes.Some? then Str(notes.value) else Null])]
  }
}
