// The worker's HTTP middlewares: bearer-token authentication in front of the
// routes, and CORS headers decided by the configured origins.
module AuthMiddleware {
  import opened Wrappers
  import opened Text
  import opened Json
  import opened Models
  import opened AuthUtils
  import opened Config

  /** An HTTP response: the status, the headers (set in place) and a JSON body. */
  class Response {
    var status: int
    var headers: map<string, string>
    var body: Value

    constructor (status: int, headers: map<string, string>, body: Value)
      ensures this.status == status && this.headers == headers && this.body == body
    {
      this.status := status;
      this.headers := headers;
      this.body := body;
    }
  }

  /** `call_next`: the rest of the application, which answers with `response`; `calls` counts the calls. */
  class Downstream {
    var calls: nat
    const response: Response

    constructor (response: Response)
      ensures this.response == response && calls == 0
    {
      this.response := response;
      calls := 0;
    }

    method Call() returns (r: Response)
      modifies this
      ensures r == response && calls == old(calls) + 1
    {
      calls := calls + 1;
      r := response;
    }
  }

  /** `request.state`: what the middleware records about the caller. */
  class RequestState {
    var userId: Option<string>
    var userRole: Option<UserRole>

    constructor ()
      ensures userId.None? && userRole.None?
    {
      userId, userRole := None, None;
    }
  }

  // -------------------------------------------------------------- auth

  const ApiV1Prefix := "/api/v1"

  /** The paths that need no token when none are configured. */
  const DefaultExcluded: seq<string> := ["/docs", "/redoc", "/openapi.json", "/health", ApiV1Prefix + "/auth/"]

  const Challenge: map<string, string> := map["WWW-Authenticate" := "Bearer"]

  /** `{"detail": ...}`. */
  function DetailBody(detail: string): Value
  {
    Obj(map["detail" := Str(detail)])
  }

  /** `any(path.startswith(p) for p in exclude_paths)`. */
  predicate Excluded(paths: seq<string>, path: string)
  {
    exists i :: 0 <= i < |paths| && StartsWith(path, paths[i])
  }

  /** `_validate_scheme`: the scheme before the first space must lower-case to "bearer", and the token is the rest, stripped; None when `split(" ", 1)` finds no space or the scheme is wrong. */
  function ParseBearer(header: string): (r: Option<string>)
    ensures ' ' !in header ==> r.None?
    ensures ' ' in header ==> var i := IndexOf(header, ' ').value;
      r == (if Lower(header[..i]) == "bearer" then Some(Trim(header[i + 1..])) else None)
  {
    match IndexOf(header, ' ')
    case None => None
    case Some(i) => if Lower(header[..i]) == "bearer" then Some(Trim(header[i + 1..])) else None
  }

  /** Any spelling of the scheme that lower-cases to "bearer" is accepted, and the token is what follows the space, stripped. */
  lemma BearerAccepted(scheme: string, token: string)
    requires Lower(scheme) == "bearer"
    ensures ParseBearer(scheme + " " + token) == Some(Trim(token))
  {
    var h := scheme + " " + token;
    assert ' ' !in scheme by {
      forall k | 0 <= k < |scheme|
        ensures scheme[k] != ' '
      {
        assert Lower(scheme)[k] == LowerChar(scheme[k]);
      }
    }
    IndexOfAfter(scheme, ' ', token);
    assert h[..|scheme|] == scheme;
    assert h[|scheme| + 1..] == token;
  }

  /** Another scheme is refused, whatever the token. */
  lemma OtherSchemeRefused(scheme: string, token: string)
    requires ' ' !in scheme && Lower(scheme) != "bearer"
    ensures ParseBearer(scheme + " " + token).None?
  {
    var h := scheme + " " + token;
    IndexOfAfter(scheme, ' ', token);
    assert h[..|scheme|] == scheme;
  }

  class Authenticator {
    const excludePaths: seq<string>

    /** `exclude_paths or [...]`: an absent or empty list means the default one. */
    constructor (excludePaths: Option<seq<string>>)
      ensures this.excludePaths == if excludePaths.None? || excludePaths.value == [] then DefaultExcluded else excludePaths.value
    {
      this.excludePaths := if excludePaths.None? || excludePaths.value == [] then DefaultExcluded else excludePaths.value;
    }

    /** `AuthMiddleware.dispatch`; `authHeader` is the Authorization header, if any. */
    method Dispatch(path: string, authHeader: Option<string>, j: Jwt, state: RequestState, next: Downstream)
      returns (resp: Response)
      modifies state, next
      ensures Excluded(excludePaths, path) ==>
        resp == next.response && next.calls == old(next.calls) + 1 && unchanged(state)
      ensures !Excluded(excludePaths, path) && (authHeader.None? || authHeader.value == []) ==>
        && fresh(resp) && resp.status == 401 && resp.headers == Challenge && resp.body == DetailBody("Authorization header missing")
        && next.calls == old(next.calls) && unchanged(state)
      ensures !Excluded(excludePaths, path) && authHeader.Some? && authHeader.value != [] && ParseBearer(authHeader.value).None? ==>
        && fresh(resp) && resp.status == 401 && resp.headers == Challenge && resp.body == DetailBody("Invalid authorization header format")
        && next.calls == old(next.calls) && unchanged(state)
      ensures !Excluded(excludePaths, path) && authHeader.Some? && authHeader.value != [] && ParseBearer(authHeader.value).Some? ==>
        var v := VerifyToken(j, ParseBearer(authHeader.value).value);
        && (v.Err? ==> fresh(resp) && resp.status == 401 && resp.headers == Challenge && resp.body == DetailBody("Invalid or expired token")
                       && next.calls == old(next.calls) && unchanged(state))
        && (v.Ok? ==> resp == next.response && next.calls == old(next.calls) + 1
                      && state.userId == v.value.userId && state.userRole == v.value.role)
    {
      if Excluded(excludePaths, path) {
        resp := next.Call();
        return;
      }
      if authHeader.None? || authHeader.value == [] {
        resp := new Response(401, Challenge, DetailBody("Authorization header missing"));
        return;
      }
      var token := ParseBearer(authHeader.value);
      if token.None? {
        resp := new Response(401, Challenge, DetailBody("Invalid authorization header format"));
        return;
      }
      var verified := VerifyToken(j, token.value);
      if verified.Err? {
        resp := new Response(401, Challenge, DetailBody("Invalid or expired token"));
        return;
      }
      state.userId := verified.value.userId;
      state.userRole := verified.value.role;
      resp := next.Call();
    }
  }

  /** The default exclusions match by prefix, so the whole auth router is open and the run routes are not. */
  lemma DefaultExclusions()
    ensures Excluded(DefaultExcluded, "/api/v1/auth/login")
    ensures Excluded(DefaultExcluded, "/healthz")
    ensures !Excluded(DefaultExcluded, "/api/v1/runs")
  {
    assert StartsWith("/api/v1/auth/login", DefaultExcluded[4]);
    assert StartsWith("/healthz", DefaultExcluded[3]);
    forall i | 0 <= i < |DefaultExcluded|
      ensures !StartsWith("/api/v1/runs", DefaultExcluded[i])
    {
      if i == 4 {
        assert "/api/v1/runs"[8] != DefaultExcluded[4][8];
      } else {
        assert "/api/v1/runs"[1] != DefaultExcluded[i][1];
      }
    }
  }

  // -------------------------------------------------------------- CORS

  /** The headers CORS adds to `base`: the origin pair for allow-all or for an allowed origin, then the common ones. */
  function CorsHeaders(c: CorsConfig, origin: Option<string>, base: map<string, string>): (r: map<string, string>)
  {
    var allowAll := c.allowOrigins == ["*"];
    var withOrigin :=
      if allowAll then base["Access-Control-Allow-Origin" := "*"]["Access-Control-Allow-Credentials" := "false"]
      else if origin.Some? && origin.value != [] && origin.value in c.allowOrigins then
        base["Access-Control-Allow-Origin" := origin.value]["Access-Control-Allow-Credentials" := "true"]["Vary" := "Origin"]
      else base;
    var common := withOrigin["Access-Control-Allow-Methods" := Join(c.allowMethods, ", ")]
                            ["Access-Control-Allow-Headers" := Join(c.allowHeaders, ", ")];
    var exposed := if c.exposeHeaders != [] then common["Access-Control-Expose-Headers" := Join(c.exposeHeaders, ", ")] else common;
    exposed["Access-Control-Max-Age" := NatToString(c.maxAge)]
  }

  /** The three origin cases of the CORS headers, and the common headers every answered request gets. */
  lemma CorsCases(c: CorsConfig, origin: Option<string>, base: map<string, string>)
    ensures var r := CorsHeaders(c, origin, base);
      && (c.allowOrigins == ["*"] ==>
            r["Access-Control-Allow-Origin"] == "*" && r["Access-Control-Allow-Credentials"] == "false")
      && (c.allowOrigins != ["*"] && origin.Some? && origin.value != [] && origin.value in c.allowOrigins ==>
            && r["Access-Control-Allow-Origin"] == origin.value && r["Access-Control-Allow-Credentials"] == "true"
            && r["Vary"] == "Origin")
      && (c.allowOrigins != ["*"] && (origin.None? || origin.value == [] || origin.value !in c.allowOrigins) ==>
            forall k :: k in {"Access-Control-Allow-Origin", "Access-Control-Allow-Credentials", "Vary"} ==>
              (k in r <==> k in base) && (k in base ==> r[k] == base[k]))
      && r["Access-Control-Allow-Methods"] == Join(c.allowMethods, ", ")
      && r["Access-Control-Allow-Headers"] == Join(c.allowHeaders, ", ")
      && r["Access-Control-Max-Age"] == NatToString(c.maxAge)
      && ("Access-Control-Expose-Headers" in r <==> c.exposeHeaders != [] || "Access-Control-Expose-Headers" in base)
  {
  }

  class Cors {
    const config: CorsConfig
    const allowAllOrigins: bool

    constructor (config: CorsConfig)
      ensures this.config == config && allowAllOrigins == (config.allowOrigins == ["*"])
    {
      this.config := config;
      allowAllOrigins := config.allowOrigins == ["*"];
    }

    /** `_is_origin_allowed`. */
    predicate IsOriginAllowed(origin: string)
    {
      allowAllOrigins || origin in config.allowOrigins
    }

    /** `CORSMiddleware.dispatch`: a disallowed origin is passed through untouched; a preflight gets an empty answer of its own; anything else is the application's answer with the CORS headers added in place. */
    method Dispatch(requestMethod: string, origin: Option<string>, next: Downstream) returns (resp: Response)
      requires allowAllOrigins == (config.allowOrigins == ["*"])
      modifies next, next.response
      ensures origin.Some? && origin.value != [] && !IsOriginAllowed(origin.value) ==>
        resp == next.response && next.calls == old(next.calls) + 1 && unchanged(next.response)
      ensures !(origin.Some? && origin.value != [] && !IsOriginAllowed(origin.value)) && requestMethod == "OPTIONS" ==>
        && fresh(resp) && resp.status == 200 && resp.body == Null && resp.headers == CorsHeaders(config, origin, map[])
        && next.calls == old(next.calls) && unchanged(next.response)
      ensures !(origin.Some? && origin.value != [] && !IsOriginAllowed(origin.value)) && requestMethod != "OPTIONS" ==>
        && resp == next.response && next.calls == old(next.calls) + 1
        && resp.headers == CorsHeaders(config, origin, old(next.response.headers))
        && resp.status == old(next.response.status) && resp.body == old(next.response.body)
    {
      if origin.Some? && origin.value != [] && !IsOriginAllowed(origin.value) {
        resp := next.Call();
        return;
      }
      if requestMethod == "OPTIONS" {
        resp := new Response(200, map[], Null);
      } else {
        resp := next.Call();
      }
      AddHeaders(origin, resp);
    }

    /** The header writes of `dispatch`, on the response it answers with. */
    method AddHeaders(origin: Option<string>, resp: Response)
      requires allowAllOrigins == (config.allowOrigins == ["*"])
      modifies resp
      ensures resp.headers == CorsHeaders(config, origin, old(resp.headers))
      ensures resp.status == old(resp.status) && resp.body == old(resp.body)
    {
      if allowAllOrigins {
        resp.headers := resp.headers["Access-Control-Allow-Origin" := "*"];
        resp.headers := resp.headers["Access-Control-Allow-Credentials" := "false"];
      } else if origin.Some? && origin.value != [] && IsOriginAllowed(origin.value) {
        resp.headers := resp.headers["Access-Control-Allow-Origin" := origin.value];
        resp.headers := resp.headers["Access-Control-Allow-Credentials" := "true"];
        resp.headers := resp.headers["Vary" := "Origin"];
      }
      resp.headers := resp.headers["Access-Control-Allow-Methods" := Join(config.allowMethods, ", ")];
      resp.headers := resp.headers["Access-Control-Allow-Headers" := Join(config.allowHeaders, ", ")];
      if config.exposeHeaders != [] {
        resp.headers := resp.headers["Access-Control-Expose-Headers" := Join(config.exposeHeaders, ", ")];
      }
      resp.headers := resp.headers["Access-Control-Max-Age" := NatToString(config.maxAge)];
    }
  }

  /** An origin is allowed exactly when every origin is, or when it is listed verbatim. */
  lemma OriginAllowedIff(c: Cors, origin: string)
    requires c.allowAllOrigins == (c.config.allowOrigins == ["*"])
    ensures c.IsOriginAllowed(origin) <==> c.config.allowOrigins == ["*"] || origin in c.config.allowOrigins
  {
  }
}
