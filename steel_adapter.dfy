// The attach-only Steel.dev session provider of the flow runtime: it finds
// the browser session persisted for a run, enriches it with the provider's
// WebSocket URL, and keeps the mapping until the session is released.
module SteelAdapter {
  import opened Wrappers
  import opened Json
  import opened SteelSessions

  /** The first row whose session has not ended, as `next(...)` over the rows finds it. */
  function FirstActive(rows: seq<SessionRow>): (r: Option<nat>)
    ensures r.Some? ==> r.value < |rows| && !rows[r.value].ended
                        && forall k :: 0 <= k < r.value ==> rows[k].ended
    ensures r.None? ==> forall k :: 0 <= k < |rows| ==> rows[k].ended
  {
    if rows == [] then None
    else if !rows[0].ended then Some(0)
    else match FirstActive(rows[1..])
      case None => None
      case Some(k) => Some(k + 1)
  }

  /** The WebSocket URL taken from the provider's answer: websocketUrl, else connectUrl, else wsUrl, and None when the answer is not a dict or the lookup failed. */
  function WebsocketUrl(info: Result<Value, string>): Value
  {
    if info.Ok? && info.value.Obj? then
      var d := info.value.fields;
      var ws := Or(Or(Get(d, "websocketUrl"), Get(d, "connectUrl")), Get(d, "wsUrl"));
      if Truthy(ws) then ws else Null
    else Null
  }

  function OptionalStr(o: Option<string>): Value
  {
    if o.Some? then Str(o.value) else Null
  }

  /** The mapping seeded from a row, with the WebSocket URL found for it. */
  function Seed(row: SessionRow, ws: Value): SessionInfo
  {
    SessionInfo(OptionalStr(row.providerSessionId), OptionalStr(row.sessionUrl), ws, Str(row.status), OptionalStr(row.createdAt))
  }

  function NoSessionMessage(runId: string): string
  {
    "No persisted browser session found for run " + runId
  }

  /** Whether the provider is asked for session info: only when the row has a non-empty provider session id. */
  predicate HasProviderId(row: SessionRow)
  {
    row.providerSessionId.Some? && row.providerSessionId.value != ""
  }

  /** What attaching a run that has no mapping yet gives, from the repository's rows and the provider's answers. */
  function Attach(runId: string, rows: Result<seq<SessionRow>, string>, infoOf: string -> Result<Value, string>)
    : Result<SessionInfo, SteelError>
  {
    if rows.Err? then Err(RepositoryError(rows.error))
    else match FirstActive(rows.value)
      case None => Err(RuntimeError(NoSessionMessage(runId)))
      case Some(i) =>
        var row := rows.value[i];
        Ok(Seed(row, if HasProviderId(row) then WebsocketUrl(infoOf(row.providerSessionId.value)) else Null))
  }

  /** The calls attaching a run that has no mapping yet makes. */
  function AttachCalls(runId: string, rows: Result<seq<SessionRow>, string>): seq<Call>
  {
    [SessionsQuery(runId)]
    + if rows.Err? then []
      else match FirstActive(rows.value)
        case None => []
        case Some(i) => if HasProviderId(rows.value[i]) then [InfoQuery(rows.value[i].providerSessionId.value)] else []
  }

  /** `SteelBrowserAdapter` of the runtime adapters: the mapping of run id to session. */
  class SteelBrowserAdapter {
    const provider: Provider
    var sessions: map<string, SessionInfo>

    constructor (provider: Provider)
      ensures this.provider == provider && sessions == map[]
    {
      this.provider := provider;
      sessions := map[];
    }

    /** `attach_to_session`. */
    method AttachToSession(runId: string) returns (r: Result<(), SteelError>)
      modifies this, provider
      ensures runId in old(sessions) ==> r == Ok(()) && sessions == old(sessions) && provider.calls == old(provider.calls)
      ensures runId !in old(sessions) ==>
        var a := Attach(runId, provider.sessionsOf(runId), provider.infoOf);
        && provider.calls == old(provider.calls) + AttachCalls(runId, provider.sessionsOf(runId))
        && (a.Ok? ==> r == Ok(()) && sessions == old(sessions)[runId := a.value])
        && (a.Err? ==> r == Err(a.error) && sessions == old(sessions))
    {
      if runId in sessions {
        return Ok(());
      }
      var rows := provider.GetSessions(runId);
      if rows.Err? {
        return Err(RepositoryError(rows.error));
      }
      var active := FirstActive(rows.value);
      if active.None? {
        return Err(RuntimeError(NoSessionMessage(runId)));
      }
      var row := rows.value[active.value];
      var ws := Null;
      if HasProviderId(row) {
        var info := provider.GetSessionInfo(row.providerSessionId.value);
        ws := WebsocketUrl(info);
      }
      sessions := sessions[runId := Seed(row, ws)];
      r := Ok(());
    }

    /** `close_session`. */
    method CloseSession(runId: string)
      modifies this, provider
      ensures sessions == Closed(old(sessions), runId, provider.released)
      ensures provider.calls == old(provider.calls) + CloseCalls(old(sessions), runId)
    {
      if runId !in sessions {
        return;
      }
      var sessionId := sessions[runId].sessionId;
      if Truthy(sessionId) {
        var ok := provider.ReleaseSession(sessionId);
        if !ok {
          return;
        }
      }
      sessions := sessions - {runId};
    }

    /** `get_session_info` (and `get_session_status`): exactly the stored mapping, or None. */
    function GetSessionInfo(runId: string): (r: Option<SessionInfo>)
      reads this
      ensures r.Some? <==> runId in sessions
      ensures r.Some? ==> r.value == sessions[runId]
    {
      if runId in sessions then Some(sessions[runId]) else None
    }
  }

  /** Attaching takes the first row whose session has not ended; with none it raises RuntimeError, and a repository failure propagates. */
  lemma AttachChoosesFirstActive(runId: string, rows: Result<seq<SessionRow>, string>, infoOf: string -> Result<Value, string>)
    ensures var a := Attach(runId, rows, infoOf);
      && (rows.Err? ==> a == Err(RepositoryError(rows.error)))
      && (rows.Ok? && (forall k :: 0 <= k < |rows.value| ==> rows.value[k].ended) ==> a == Err(RuntimeError(NoSessionMessage(runId))))
      && (a.Ok? ==> exists i :: 0 <= i < |rows.value| && !rows.value[i].ended && (forall k :: 0 <= k < i ==> rows.value[k].ended)
                              && a.value.sessionId == OptionalStr(rows.value[i].providerSessionId)
                              && a.value.sessionUrl == OptionalStr(rows.value[i].sessionUrl)
                              && a.value.status == Str(rows.value[i].status))
  {
    if rows.Ok? {
      match FirstActive(rows.value)
      case None =>
      case Some(i) => assert !rows.value[i].ended && forall k :: 0 <= k < i ==> rows.value[k].ended;
    }
  }

  /** The provider's answer never decides whether attaching succeeds: only the rows do. */
  lemma AttachIgnoresLookupFailure(runId: string, rows: Result<seq<SessionRow>, string>,
                                   infoOf: string -> Result<Value, string>, other: string -> Result<Value, string>)
    ensures Attach(runId, rows, infoOf).Ok? <==> Attach(runId, rows, other).Ok?
    ensures rows.Ok? && FirstActive(rows.value).Some? && infoOf(rows.value[FirstActive(rows.value).value].providerSessionId.GetOr("")).Err?
            ==> Attach(runId, rows, infoOf).Ok? && Attach(runId, rows, infoOf).value.websocketUrl == Null
  {
  }

  /** The WebSocket URL preference: websocketUrl, then connectUrl, then wsUrl, each only when truthy. */
  lemma WebsocketPreference(d: Dict)
    ensures Truthy(Get(d, "websocketUrl")) ==> WebsocketUrl(Ok(Obj(d))) == d["websocketUrl"]
    ensures !Truthy(Get(d, "websocketUrl")) && Truthy(Get(d, "connectUrl")) ==> WebsocketUrl(Ok(Obj(d))) == d["connectUrl"]
    ensures !Truthy(Get(d, "websocketUrl")) && !Truthy(Get(d, "connectUrl")) && Truthy(Get(d, "wsUrl"))
            ==> WebsocketUrl(Ok(Obj(d))) == d["wsUrl"]
    ensures !Truthy(Get(d, "websocketUrl")) && !Truthy(Get(d, "connectUrl")) && !Truthy(Get(d, "wsUrl"))
            ==> WebsocketUrl(Ok(Obj(d))) == Null
  {
  }

  /** Attaching twice is attaching once: the second call neither queries nor changes anything. */
  method AttachTwice(adapter: SteelBrowserAdapter, runId: string) returns (first: Result<(), SteelError>, second: Result<(), SteelError>)
    modifies adapter, adapter.provider
    ensures first.Ok? ==> second == Ok(()) && runId in adapter.sessions
    ensures first.Ok? ==> adapter.provider.calls == old(adapter.provider.calls) + (if runId in old(adapter.sessions) then [] else AttachCalls(runId, adapter.provider.sessionsOf(runId)))
  {
    first := adapter.AttachToSession(runId);
    second := adapter.AttachToSession(runId);
  }
}
