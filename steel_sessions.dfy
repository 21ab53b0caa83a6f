// What the two Steel.dev browser adapters share: the per-run session
// mapping they keep, the calls they make to the database and to the
// Steel.dev API, and the rule by which close_session forgets a mapping.
module SteelSessions {
  import opened Wrappers
  import opened Json

  /** The mapping kept per run: session_id, session_url, websocket_url, status and created_at. */
  datatype SessionInfo = SessionInfo(sessionId: Value, sessionUrl: Value, websocketUrl: Value, status: Value, createdAt: Value)

  /** A browser-session row of the runs database. */
  datatype SessionRow = SessionRow(providerSessionId: Option<string>, sessionUrl: Option<string>, status: string,
                                   createdAt: Option<string>, ended: bool)

  /** What the adapters raise. */
  datatype SteelError =
    | RuntimeError(message: string)
    | ValueError(message: string)
    | RepositoryError(message: string)
    | ProviderError(message: string)

  /** A call made outside the adapter. */
  datatype Call =
    | SessionsQuery(runId: string)
    | InfoQuery(providerId: string)
    | ReleaseRequest(sessionId: Value)
    | CreateRequest

  /**
   * The run repository and the Steel.dev client as the adapters see them:
   * what each query answers, and the record of the calls made.
   * `created(n)` is the answer to the n-th call overall when it is a
   * create_session call: the session data or None, or the exception that
   * leaves the call once its retries are spent or its body is not JSON.
   */
  class Provider {
    const sessionsOf: string -> Result<seq<SessionRow>, string>
    const infoOf: string -> Result<Value, string>
    const released: Value -> bool
    const created: nat -> Result<Option<Dict>, string>
    var calls: seq<Call>

    constructor (sessionsOf: string -> Result<seq<SessionRow>, string>, infoOf: string -> Result<Value, string>,
                 released: Value -> bool, created: nat -> Result<Option<Dict>, string>)
      ensures this.sessionsOf == sessionsOf && this.infoOf == infoOf
      ensures this.released == released && this.created == created
      ensures calls == []
    {
      this.sessionsOf := sessionsOf;
      this.infoOf := infoOf;
      this.released := released;
      this.created := created;
      calls := [];
    }

    /** `RunRepository.get_sessions`. */
    method GetSessions(runId: string) returns (r: Result<seq<SessionRow>, string>)
      modifies this
      ensures r == sessionsOf(runId) && calls == old(calls) + [SessionsQuery(runId)]
    {
      r := sessionsOf(runId);
      calls := calls + [SessionsQuery(runId)];
    }

    /** `SteelService.get_session_info`; an Err is the exception it raises. */
    method GetSessionInfo(providerId: string) returns (r: Result<Value, string>)
      modifies this
      ensures r == infoOf(providerId) && calls == old(calls) + [InfoQuery(providerId)]
    {
      r := infoOf(providerId);
      calls := calls + [InfoQuery(providerId)];
    }

    /** `SteelService.release_session`: whether the provider confirmed the release. */
    method ReleaseSession(sessionId: Value) returns (ok: bool)
      modifies this
      ensures ok == released(sessionId) && calls == old(calls) + [ReleaseRequest(sessionId)]
    {
      ok := released(sessionId);
      calls := calls + [ReleaseRequest(sessionId)];
    }

    /** `SteelService.create_session`: the new session's data or None; an Err is the exception it raises. */
    method CreateSession() returns (r: Result<Option<Dict>, string>)
      modifies this
      ensures r == created(|old(calls)|) && calls == old(calls) + [CreateRequest]
    {
      r := created(|calls|);
      calls := calls + [CreateRequest];
    }
  }

  /** The sessions map after close_session: kept when release was attempted and refused, removed otherwise. */
  function Closed(sessions: map<string, SessionInfo>, runId: string, released: Value -> bool): map<string, SessionInfo>
  {
    if runId !in sessions then sessions
    else if Truthy(sessions[runId].sessionId) && !released(sessions[runId].sessionId) then sessions
    else sessions - {runId}
  }

  /** The calls close_session makes: a release only for a known run with a session id. */
  function CloseCalls(sessions: map<string, SessionInfo>, runId: string): seq<Call>
  {
    if runId in sessions && Truthy(sessions[runId].sessionId) then [ReleaseRequest(sessions[runId].sessionId)] else []
  }

  /**
   * Closing forgets a known run's mapping exactly when it has no session
   * id or the provider confirmed the release, leaves an unknown run alone,
   * and never touches another run's mapping.
   */
  lemma ClosedForgets(sessions: map<string, SessionInfo>, runId: string, released: Value -> bool)
    ensures var after := Closed(sessions, runId, released);
      && (runId !in sessions ==> after == sessions && CloseCalls(sessions, runId) == [])
      && (runId in sessions ==>
            (runId !in after <==> !Truthy(sessions[runId].sessionId) || released(sessions[runId].sessionId)))
      && (runId in after ==> after[runId] == sessions[runId])
      && forall k :: k != runId ==> (k in after <==> k in sessions) && (k in after ==> after[k] == sessions[k])
  {
  }
}
