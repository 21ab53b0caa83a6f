// The older Steel.dev adapter of the runtime: it creates a browser session
// per run itself, answers placeholder action and screenshot results for a
// run that has one, and releases it on close.
module SteelLegacy {
  import opened Wrappers
  import opened Json
  import opened SteelSessions

  function CreateFailedMessage(runId: string): string
  {
    "Failed to create Steel session for run " + runId
  }

  function MissingUrlMessage(runId: string): string
  {
    "Steel session created but missing URL for run " + runId
  }

  function NoActiveSessionMessage(runId: string): string
  {
    "No active session for run " + runId
  }

  /** The session URL of the provider's answer: debugUrl, else sessionViewerUrl. */
  function SessionUrl(d: Dict): Value
  {
    Or(Get(d, "debugUrl"), Get(d, "sessionViewerUrl"))
  }

  /** The mapping stored for a new session; the status defaults to "active" when the answer has none. */
  function Stored(d: Dict): SessionInfo
  {
    SessionInfo(Get(d, "id"), SessionUrl(d), Get(d, "websocketUrl"), GetOr(d, "status", Str("active")), Get(d, "createdAt"))
  }

  /** What create_session gives for the provider's answer: the session URL, the RuntimeError it raises, or the provider's exception passed on. */
  function Created(runId: string, data: Result<Option<Dict>, string>): (r: Result<Value, SteelError>)
    ensures data.Err? ==> r == Err(ProviderError(data.error))
    ensures data.Ok? && (data.value.None? || data.value.value == map[]) ==> r == Err(RuntimeError(CreateFailedMessage(runId)))
    ensures data.Ok? && data.value.Some? && data.value.value != map[] && !Truthy(SessionUrl(data.value.value)) ==>
      r == Err(RuntimeError(MissingUrlMessage(runId)))
    ensures r.Ok? ==> data.Ok? && data.value.Some? && r.value == SessionUrl(data.value.value) && Truthy(r.value)
  {
    if data.Err? then Err(ProviderError(data.error))
    else if data.value.None? || data.value.value == map[] then Err(RuntimeError(CreateFailedMessage(runId)))
    else if !Truthy(SessionUrl(data.value.value)) then Err(RuntimeError(MissingUrlMessage(runId)))
    else Ok(SessionUrl(data.value.value))
  }

  /** Creating a session succeeds exactly when the provider answers with a non-empty mapping holding a truthy debugUrl or sessionViewerUrl; the errors name the run, or are the provider's own. */
  lemma CreatedIffUrl(runId: string, data: Result<Option<Dict>, string>)
    ensures Created(runId, data).Ok? <==>
      data.Ok? && data.value.Some? && data.value.value != map[]
      && (Truthy(Get(data.value.value, "debugUrl")) || Truthy(Get(data.value.value, "sessionViewerUrl")))
    ensures Created(runId, data).Err? ==>
      Created(runId, data).error in {RuntimeError(CreateFailedMessage(runId)), RuntimeError(MissingUrlMessage(runId))}
      || (data.Err? && Created(runId, data).error == ProviderError(data.error))
  {
  }

  /** The placeholder result of execute_action. */
  function ActionResult(actionType: string, params: Dict): Dict
  {
    map["action" := Str(actionType), "params" := Obj(params), "status" := Str("completed"), "timestamp" := Null]
  }

  /** The placeholder screenshot reference. */
  function ScreenshotRef(name: string, runId: string): string
  {
    "screenshot_" + name + "_" + runId
  }

  /** `SteelBrowserAdapter` of runtime/steel.py: the mapping of run id to session. */
  class SteelBrowserAdapter {
    const provider: Provider
    var sessions: map<string, SessionInfo>

    constructor (provider: Provider)
      ensures this.provider == provider && sessions == map[]
    {
      this.provider := provider;
      sessions := map[];
    }

    /** `create_session`: stores the mapping and returns the URL, or raises (or lets the provider's exception through) without storing anything. */
    method CreateSession(runId: string) returns (r: Result<Value, SteelError>)
      modifies this, provider
      ensures provider.calls == old(provider.calls) + [CreateRequest]
      ensures var data := provider.created(|old(provider.calls)|);
        && r == Created(runId, data)
        && sessions == (if r.Ok? then old(sessions)[runId := Stored(data.value.value)] else old(sessions))
    {
      var data := provider.CreateSession();
      if data.Err? {
        return Err(ProviderError(data.error));
      }
      if data.value.None? || data.value.value == map[] {
        return Err(RuntimeError(CreateFailedMessage(runId)));
      }
      var url := SessionUrl(data.value.value);
      if !Truthy(url) {
        return Err(RuntimeError(MissingUrlMessage(runId)));
      }
      sessions := sessions[runId := Stored(data.value.value)];
      r := Ok(url);
    }

    /** `execute_action`: a ValueError without a session, otherwise the placeholder result. */
    function ExecuteAction(runId: string, actionType: string, params: Dict): (r: Result<Dict, SteelError>)
      reads this
      ensures r.Err? <==> runId !in sessions
      ensures r.Err? ==> r.error == ValueError(NoActiveSessionMessage(runId))
      ensures r.Ok? ==> r.value.Keys == {"action", "params", "status", "timestamp"}
      ensures r.Ok? ==> && "action" in r.value && r.value["action"] == Str(actionType)
                        && "params" in r.value && r.value["params"] == Obj(params)
                        && "status" in r.value && r.value["status"] == Str("completed")
                        && "timestamp" in r.value && r.value["timestamp"] == Null
    {
      if runId !in sessions then Err(ValueError(NoActiveSessionMessage(runId))) else Ok(ActionResult(actionType, params))
    }

    /** `take_screenshot`: a ValueError without a session, otherwise the reference for that name and run. */
    function TakeScreenshot(runId: string, name: string): (r: Result<string, SteelError>)
      reads this
      ensures r.Err? <==> runId !in sessions
      ensures r.Err? ==> r.error == ValueError(NoActiveSessionMessage(runId))
      ensures r.Ok? ==> r.value == ScreenshotRef(name, runId)
    {
      if runId !in sessions then Err(ValueError(NoActiveSessionMessage(runId))) else Ok(ScreenshotRef(name, runId))
    }

    /** `close_session`. */
    method CloseSession(runId: string)
      modifies this, provider
      ensures sessions == Closed(old(sessions), runId, provider.released)
      ensures provider.calls == old(provider.calls) + CloseCalls(old(sessions), runId)
    {
      if runId !in sessions {
        return;
      }
      var sessionId := sessions[runId].sessionId;
      if Truthy(sessionId) {
        var ok := provider.ReleaseSession(sessionId);
        if !ok {
          return;
        }
      }
      sessions := sessions - {runId};
    }

    /** `get_session_info` (and `get_session_status`): exactly the stored mapping, or None. */
    function GetSessionInfo(runId: string): (r: Option<SessionInfo>)
      reads this
      ensures r.Some? <==> runId in sessions
      ensures r.Some? ==> r.value == sessions[runId]
    {
      if runId in sessions then Some(sessions[runId]) else None
    }
  }

  /** A created session prefers debugUrl, falls back to sessionViewerUrl, and is stored with status "active" when the answer names none. */
  lemma CreatedUrlPreference(runId: string, d: Dict)
    requires d != map[]
    ensures Truthy(Get(d, "debugUrl")) ==> Created(runId, Ok(Some(d))) == Ok(d["debugUrl"])
    ensures !Truthy(Get(d, "debugUrl")) && Truthy(Get(d, "sessionViewerUrl")) ==> Created(runId, Ok(Some(d))) == Ok(d["sessionViewerUrl"])
    ensures "status" !in d ==> Stored(d).status == Str("active")
    ensures "status" in d ==> Stored(d).status == d["status"]
  {
  }

  /** Within one run, different names give different screenshot references; and since run ids are UUIDs of one fixed length, different runs do too. */
  lemma ScreenshotRefInjective(name1: string, run1: string, name2: string, run2: string)
    requires |run1| == |run2|
    requires ScreenshotRef(name1, run1) == ScreenshotRef(name2, run2)
    ensures name1 == name2 && run1 == run2
  {
    var s := ScreenshotRef(name1, run1);
    assert |name1| == |name2|;
    assert name1 == s[11..11 + |name1|];
    assert name2 == ScreenshotRef(name2, run2)[11..11 + |name2|];
    assert run1 == s[|s| - |run1|..];
    assert run2 == ScreenshotRef(name2, run2)[|s| - |run2|..];
  }

  /** A run's session can be used for actions and screenshots exactly between a successful create and a close that released it. */
  method CreateThenClose(adapter: SteelBrowserAdapter, runId: string, name: string) returns (created: Result<Value, SteelError>, shot: Result<string, SteelError>)
    modifies adapter, adapter.provider
    ensures created == Created(runId, adapter.provider.created(|old(adapter.provider.calls)|))
    ensures created.Ok? ==> shot == Ok(ScreenshotRef(name, runId))
    ensures created.Ok? ==>
      var id := Get(adapter.provider.created(|old(adapter.provider.calls)|).value.value, "id");
      (adapter.TakeScreenshot(runId, name).Err? <==> !Truthy(id) || adapter.provider.released(id))
  {
    created := adapter.CreateSession(runId);
    shot := adapter.TakeScreenshot(runId, name);
    adapter.CloseSession(runId);
  }
}
