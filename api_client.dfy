// The server-side API client of the web app: its fetch wrapper adds the
// bearer token from the session cookie, and on a 401 refreshes the tokens
// once, stores them in the cookies as far as it may, and retries once.
module ApiClient {
  import opened Wrappers
  import opened Text
  import opened Cookies

  const RefreshPath := "/api/v1/auth/refresh"
  const DefaultBaseUrl := "http://localhost:8000"

  /** Header names as `Headers` keeps them: lower-cased. */
  const Authorization := "authorization"
  const RetryMarker := "x-retry-after-refresh"

  type Headers = map<string, string>

  /** What the wrapper is called with: a URL string, a URL object, a Request, or anything else (whose conversion to a string may throw). */
  datatype RequestInfo =
    | StringInput(s: string)
    | UrlInput(href: string)
    | RequestInput(url: string, headers: Headers)
    | OtherInput(text: Option<string>)

  datatype Response = Response(status: int, body: string)

  /** The tokens the refresh endpoint answers with; an empty refresh token is none. */
  datatype WebToken = WebToken(accessToken: string, refreshToken: string, expiresIn: int, refreshExpiresIn: int)

  /** The text `isRefreshUrl` looks at, or None when converting the input throws. */
  function UrlText(input: RequestInfo): Option<string>
  {
    match input
    case StringInput(s) => Some(s)
    case UrlInput(href) => Some(href)
    case RequestInput(url, _) => Some(url)
    case OtherInput(t) => t
  }

  /** `isRefreshUrl`. */
  function IsRefreshUrl(input: RequestInfo): (r: bool)
    ensures r <==> UrlText(input).Some? && Contains(UrlText(input).value, RefreshPath)
    ensures UrlText(input).None? ==> !r
  {
    match UrlText(input)
    case None => false
    case Some(u) => Contains(u, RefreshPath)
  }

  /** `getBaseUrl`: NEXT_PUBLIC_API_BASE_URL when set and non-empty. */
  function BaseUrl(env: Option<string>): (r: string)
    ensures env.Some? && env.value != "" ==> r == env.value
    ensures env.None? || env.value == "" ==> r == DefaultBaseUrl
  {
    if env.Some? && env.value != "" then env.value else DefaultBaseUrl
  }

  /** The base URL is never empty, a configured one is kept as it is, and feeding the result back in changes nothing. */
  lemma BaseUrlSettled(env: Option<string>)
    ensures BaseUrl(env) != ""
    ensures BaseUrl(Some(BaseUrl(env))) == BaseUrl(env)
    ensures BaseUrl(env) != DefaultBaseUrl ==> env == Some(BaseUrl(env))
  {
  }

  /** The Request's own headers overlaid with `init.headers`. */
  function StartHeaders(input: RequestInfo, initHeaders: Headers): Headers
  {
    (if input.RequestInput? then input.headers else map[]) + initHeaders
  }

  /** The headers of the first request: the bearer token is added only with an access cookie, no Authorization yet and a target other than the refresh endpoint. */
  function Outgoing(input: RequestInfo, initHeaders: Headers, access: Option<string>): Headers
  {
    var h := StartHeaders(input, initHeaders);
    if access.Some? && access.value != "" && Authorization !in h && !IsRefreshUrl(input)
    then h[Authorization := "Bearer " + access.value]
    else h
  }

  /** The headers of the retry: the new bearer token, overwriting any, and the marker. */
  function RetryHeaders(h: Headers, accessToken: string): Headers
  {
    h[Authorization := "Bearer " + accessToken][RetryMarker := "1"]
  }

  /** Whether the first response goes back as it is. */
  predicate ReturnedAsIs(response: Response, h: Headers, input: RequestInfo)
  {
    response.status != 401 || (RetryMarker in h && h[RetryMarker] == "1") || IsRefreshUrl(input)
  }

  /** A request that reached the network. */
  datatype Sent = FetchSent(input: RequestInfo, headers: Headers) | RefreshSent(refreshToken: string)

  /** A cookie written to the store. */
  datatype CookieWrite = CookieWrite(name: string, value: string, options: CookieOptions)

  /** The options both token cookies are written with. */
  function TokenCookieOptions(isProduction: bool, maxAge: int): (o: CookieOptions)
    ensures o.httpOnly && o.secure == isProduction && o.sameSite == Some(SameSiteLax) && o.path == Some("/")
    ensures o.maxAge == Some(maxAge as real) && o.domain.None? && !o.partitioned
  {
    NoOptions.(httpOnly := true, secure := isProduction, sameSite := Some(SameSiteLax), path := Some("/"), maxAge := Some(maxAge as real))
  }

  /** The writes after a refresh: none when the store refuses (the first write throws), else the session cookie and, with a new refresh token, the refresh cookie. */
  function TokenWrites(writable: bool, sessionCookie: string, refreshCookie: string, isProduction: bool, t: WebToken): seq<CookieWrite>
  {
    if !writable then []
    else [CookieWrite(sessionCookie, t.accessToken, TokenCookieOptions(isProduction, t.expiresIn))]
         + if t.refreshToken != "" then [CookieWrite(refreshCookie, t.refreshToken, TokenCookieOptions(isProduction, t.refreshExpiresIn))] else []
  }

  /** The whole of one call: its result, what reached the network, and the cookies written. */
  datatype Exchange = Exchange(result: Result<Response, string>, sent: seq<Sent>, writes: seq<CookieWrite>)

  /** The client's setting: cookie names and whether NODE_ENV is production. */
  datatype ClientConfig = ClientConfig(baseUrl: string, sessionCookie: string, refreshCookie: string, isProduction: bool)

  /**
   * What the fetch wrapper does, given the cookies, whether the store
   * accepts writes, and the network: `respond(n, s)` and `refresh(n, t)` are
   * the answers to the n-th request, an Err being a thrown error.
   */
  function Run(c: ClientConfig, input: RequestInfo, initHeaders: Headers, cookies: map<string, string>, writable: bool,
               respond: (nat, Sent) -> Result<Response, string>, refresh: (nat, string) -> Result<WebToken, string>, n: nat)
    : Exchange
  {
    var h := Outgoing(input, initHeaders, if c.sessionCookie in cookies then Some(cookies[c.sessionCookie]) else None);
    var first := FetchSent(input, h);
    match respond(n, first)
    case Err(e) => Exchange(Err(e), [first], [])
    case Ok(response) =>
      var rest := AfterFirst(c, input, h, response, cookies, writable, respond, refresh, n + 1);
      Exchange(rest.result, [first] + rest.sent, rest.writes)
  }

  /** After a first response: return it, or refresh with the refresh cookie and retry. */
  function AfterFirst(c: ClientConfig, input: RequestInfo, h: Headers, response: Response, cookies: map<string, string>, writable: bool,
                      respond: (nat, Sent) -> Result<Response, string>, refresh: (nat, string) -> Result<WebToken, string>, n: nat)
    : Exchange
  {
    if ReturnedAsIs(response, h, input) then Exchange(Ok(response), [], [])
    else if c.refreshCookie !in cookies || cookies[c.refreshCookie] == "" then Exchange(Ok(response), [], [])
    else
      var rt := cookies[c.refreshCookie];
      match refresh(n, rt)
      case Err(_) => Exchange(Ok(response), [RefreshSent(rt)], [])
      case Ok(t) =>
        var retry := Retried(c, input, h, response, t, writable, respond, n + 1);
        Exchange(retry.result, [RefreshSent(rt)] + retry.sent, retry.writes)
  }

  /** After a refresh answered: the cookie writes and the one retry. */
  function Retried(c: ClientConfig, input: RequestInfo, h: Headers, response: Response, t: WebToken, writable: bool,
                   respond: (nat, Sent) -> Result<Response, string>, n: nat)
    : Exchange
  {
    var second := FetchSent(input, RetryHeaders(h, t.accessToken));
    var writes := TokenWrites(writable, c.sessionCookie, c.refreshCookie, c.isProduction, t);
    match respond(n, second)
    case Err(_) => Exchange(Ok(response), [second], writes)
    case Ok(retried) => Exchange(Ok(retried), [second], writes)
  }

  /** The cookie store of the request: it refuses writes outside a mutable context, which `set` signals by throwing. */
  class CookieStore {
    var cookies: map<string, string>
    var writes: seq<CookieWrite>
    const writable: bool

    constructor (cookies: map<string, string>, writable: bool)
      ensures this.cookies == cookies && this.writable == writable && writes == []
    {
      this.cookies := cookies;
      this.writable := writable;
      writes := [];
    }

    /** `cookieStore.get(name)?.value`. */
    function Get(name: string): (r: Option<string>)
      reads this
      ensures r.Some? <==> name in cookies
      ensures r.Some? ==> r.value == cookies[name]
    {
      if name in cookies then Some(cookies[name]) else None
    }

    /** `cookieStore.set`: false when it throws. */
    method Set(w: CookieWrite) returns (ok: bool)
      modifies this
      ensures ok == writable
      ensures writable ==> cookies == old(cookies)[w.name := w.value] && writes == old(writes) + [w]
      ensures !writable ==> cookies == old(cookies) && writes == old(writes)
    {
      if !writable {
        return false;
      }
      cookies := cookies[w.name := w.value];
      writes := writes + [w];
      ok := true;
    }
  }

  /** How a call begins: the first request, and either its error or the rest of the exchange. */
  lemma RunSteps(c: ClientConfig, input: RequestInfo, initHeaders: Headers, cookies: map<string, string>, writable: bool,
                 respond: (nat, Sent) -> Result<Response, string>, refresh: (nat, string) -> Result<WebToken, string>, n: nat,
                 access: Option<string>)
    requires access == (if c.sessionCookie in cookies then Some(cookies[c.sessionCookie]) else None)
    ensures var first := FetchSent(input, Outgoing(input, initHeaders, access));
      var ex := Run(c, input, initHeaders, cookies, writable, respond, refresh, n);
      && (respond(n, first).Err? ==> ex == Exchange(respond(n, first), [first], []))
      && (respond(n, first).Ok? ==>
            var rest := AfterFirst(c, input, first.headers, respond(n, first).value, cookies, writable, respond, refresh, n + 1);
            ex == Exchange(rest.result, [first] + rest.sent, rest.writes))
  {
  }

  /** The cookies after a sequence of writes. */
  function Written(cookies: map<string, string>, ws: seq<CookieWrite>): map<string, string>
    decreases |ws|
  {
    if ws == [] then cookies else Written(cookies[ws[0].name := ws[0].value], ws[1..])
  }

  /** The API server as the wrapper reaches it, with the record of what was sent. */
  class Network {
    const respond: (nat, Sent) -> Result<Response, string>
    const refresh: (nat, string) -> Result<WebToken, string>
    var log: seq<Sent>

    constructor (respond: (nat, Sent) -> Result<Response, string>, refresh: (nat, string) -> Result<WebToken, string>)
      ensures this.respond == respond && this.refresh == refresh && log == []
    {
      this.respond := respond;
      this.refresh := refresh;
      log := [];
    }

    /** `fetch(input, init)`. */
    method Fetch(input: RequestInfo, headers: Headers) returns (r: Result<Response, string>)
      modifies this
      ensures r == respond(|old(log)|, FetchSent(input, headers)) && log == old(log) + [FetchSent(input, headers)]
    {
      r := respond(|log|, FetchSent(input, headers));
      log := log + [FetchSent(input, headers)];
    }

    /** `refreshAccessTokenApiV1AuthRefreshPost` with `throwOnError`. */
    method Refresh(refreshToken: string) returns (r: Result<WebToken, string>)
      modifies this
      ensures r == refresh(|old(log)|, refreshToken) && log == old(log) + [RefreshSent(refreshToken)]
    {
      r := refresh(|log|, refreshToken);
      log := log + [RefreshSent(refreshToken)];
    }
  }

  /** The client `createAPIClient` builds. */
  class APIClient {
    const config: ClientConfig
    const store: CookieStore
    const network: Network

    constructor (config: ClientConfig, store: CookieStore, network: Network)
      ensures this.config == config && this.store == store && this.network == network
    {
      this.config := config;
      this.store := store;
      this.network := network;
    }

    /** The fetch wrapper. */
    method Fetch(input: RequestInfo, initHeaders: Headers) returns (r: Result<Response, string>)
      modifies store, network
      ensures var ex := Run(config, input, initHeaders, old(store.cookies), store.writable, network.respond, network.refresh, |old(network.log)|);
        && r == ex.result
        && network.log == old(network.log) + ex.sent
        && store.writes == old(store.writes) + ex.writes
        && store.cookies == Written(old(store.cookies), ex.writes)
    {
      ghost var cookies0, log0 := store.cookies, network.log;
      var headers, first := FirstRequest(input, initHeaders);
      RunSteps(config, input, initHeaders, cookies0, store.writable, network.respond, network.refresh, |log0|, store.Get(config.sessionCookie));
      if first.Err? {
        return first;
      }
      r := AfterFirstResponse(input, headers, first.value);
      ghost var rest := AfterFirst(config, input, headers, first.value, cookies0, store.writable, network.respond, network.refresh, |log0| + 1);
      assert network.log == log0 + ([FetchSent(input, headers)] + rest.sent);
    }

    /** The first request: the headers with the session's bearer token, sent once. */
    method FirstRequest(input: RequestInfo, initHeaders: Headers) returns (headers: Headers, first: Result<Response, string>)
      modifies network
      ensures headers == Outgoing(input, initHeaders, store.Get(config.sessionCookie))
      ensures first == network.respond(|old(network.log)|, FetchSent(input, headers))
      ensures network.log == old(network.log) + [FetchSent(input, headers)]
    {
      var access := store.Get(config.sessionCookie);
      headers := Outgoing(input, initHeaders, access);
      first := network.Fetch(input, headers);
    }

    /** The part of the wrapper after the first response. */
    method AfterFirstResponse(input: RequestInfo, headers: Headers, response: Response) returns (r: Result<Response, string>)
      modifies store, network
      ensures var ex := AfterFirst(config, input, headers, response, old(store.cookies), store.writable, network.respond, network.refresh, |old(network.log)|);
        && r == ex.result
        && network.log == old(network.log) + ex.sent
        && store.writes == old(store.writes) + ex.writes
        && store.cookies == Written(old(store.cookies), ex.writes)
    {
      if ReturnedAsIs(response, headers, input) {
        return Ok(response);
      }
      var refreshToken := store.Get(config.refreshCookie);
      if refreshToken.None? || refreshToken.value == "" {
        return Ok(response);
      }
      var token := network.Refresh(refreshToken.value);
      if token.Err? {
        return Ok(response);
      }
      r := RetryWith(input, headers, response, token.value);
    }

    /** Storing the new tokens as far as the store allows, then the one retry. */
    method RetryWith(input: RequestInfo, headers: Headers, response: Response, t: WebToken) returns (r: Result<Response, string>)
      modifies store, network
      ensures var ex := Retried(config, input, headers, response, t, store.writable, network.respond, |old(network.log)|);
        && r == ex.result
        && network.log == old(network.log) + ex.sent
        && store.writes == old(store.writes) + ex.writes
        && store.cookies == Written(old(store.cookies), ex.writes)
    {
      ghost var before := store.cookies;
      var ok := store.Set(CookieWrite(config.sessionCookie, t.accessToken, TokenCookieOptions(config.isProduction, t.expiresIn)));
      if ok && t.refreshToken != "" {
        ok := store.Set(CookieWrite(config.refreshCookie, t.refreshToken, TokenCookieOptions(config.isProduction, t.refreshExpiresIn)));
      }
      TokenWritesWritten(before, store.writable, config, t);
      var retry := network.Fetch(input, RetryHeaders(headers, t.accessToken));
      if retry.Err? {
        return Ok(response);
      }
      r := Ok(retry.value);
    }
  }

  lemma TokenWritesWritten(cookies: map<string, string>, writable: bool, c: ClientConfig, t: WebToken)
    ensures var ws := TokenWrites(writable, c.sessionCookie, c.refreshCookie, c.isProduction, t);
      && |ws| == (if !writable then 0 else if t.refreshToken != "" then 2 else 1)
      && (forall k :: 0 <= k < |ws| ==>
            ws[k].options.httpOnly && ws[k].options.secure == c.isProduction && ws[k].options.sameSite == Some(SameSiteLax)
            && ws[k].options.path == Some("/") && ws[k].options.domain.None?)
      && (|ws| > 0 ==> ws[0].name == c.sessionCookie && ws[0].options.maxAge == Some(t.expiresIn as real))
      && (|ws| > 1 ==> ws[1].name == c.refreshCookie && ws[1].options.maxAge == Some(t.refreshExpiresIn as real))
    ensures var ws := TokenWrites(writable, c.sessionCookie, c.refreshCookie, c.isProduction, t);
      Written(cookies, ws) == (if !writable then cookies
                               else if t.refreshToken != "" then cookies[c.sessionCookie := t.accessToken][c.refreshCookie := t.refreshToken]
                               else cookies[c.sessionCookie := t.accessToken])
  {
    var ws := TokenWrites(writable, c.sessionCookie, c.refreshCookie, c.isProduction, t);
    if writable {
      var c1 := cookies[c.sessionCookie := t.accessToken];
      assert Written(cookies, ws) == Written(c1, ws[1..]);
      if t.refreshToken != "" {
        assert ws[1..][1..] == [];
        assert Written(c1, ws[1..]) == Written(c1[c.refreshCookie := t.refreshToken], ws[1..][1..]);
      } else {
        assert ws[1..] == [];
      }
    }
  }

  /** `createAPIClient`, and the two deprecated wrappers, which build the very same client. */
  function CreateAPIClient(env: Option<string>, sessionCookie: string, refreshCookie: string, isProduction: bool): (c: ClientConfig)
    ensures c.baseUrl == BaseUrl(env) && c.sessionCookie == sessionCookie && c.refreshCookie == refreshCookie
  {
    ClientConfig(BaseUrl(env), sessionCookie, refreshCookie, isProduction)
  }

  function CreateAuthenticatedClient(cookieHeader: Option<string>, env: Option<string>, sessionCookie: string, refreshCookie: string, isProduction: bool)
    : (c: ClientConfig)
    ensures c == CreateAPIClient(env, sessionCookie, refreshCookie, isProduction)
  {
    CreateAPIClient(env, sessionCookie, refreshCookie, isProduction)
  }

  function CreateUnauthenticatedClient(env: Option<string>, sessionCookie: string, refreshCookie: string, isProduction: bool): (c: ClientConfig)
    ensures c == CreateAPIClient(env, sessionCookie, refreshCookie, isProduction)
  {
    CreateAPIClient(env, sessionCookie, refreshCookie, isProduction)
  }

  /** The two deprecated clients behave exactly as the current one on every call: the cookie header handed to the authenticated one plays no part. */
  lemma DeprecatedClientsBehaveAlike(cookieHeader: Option<string>, env: Option<string>, sessionCookie: string, refreshCookie: string, isProduction: bool,
                                     input: RequestInfo, initHeaders: Headers, cookies: map<string, string>, writable: bool,
                                     respond: (nat, Sent) -> Result<Response, string>, refresh: (nat, string) -> Result<WebToken, string>, n: nat)
    ensures var c := CreateAPIClient(env, sessionCookie, refreshCookie, isProduction);
      && Run(CreateAuthenticatedClient(cookieHeader, env, sessionCookie, refreshCookie, isProduction), input, initHeaders, cookies, writable, respond, refresh, n)
         == Run(c, input, initHeaders, cookies, writable, respond, refresh, n)
      && Run(CreateUnauthenticatedClient(env, sessionCookie, refreshCookie, isProduction), input, initHeaders, cookies, writable, respond, refresh, n)
         == Run(c, input, initHeaders, cookies, writable, respond, refresh, n)
    ensures CreateAPIClient(env, sessionCookie, refreshCookie, isProduction).baseUrl != ""
  {
  }

  // ----------------------------------------------------------- properties

  /** The first request carries the Request's headers overlaid by init.headers, plus the bearer token exactly when there is an access cookie, no Authorization header and the target is not the refresh endpoint. */
  lemma FirstRequestHeaders(input: RequestInfo, initHeaders: Headers, access: Option<string>)
    ensures var h := Outgoing(input, initHeaders, access);
      var start := StartHeaders(input, initHeaders);
      && (forall k :: k in initHeaders ==> k in h && h[k] == initHeaders[k])
      && (input.RequestInput? ==> forall k :: k in input.headers && k !in initHeaders ==> k in h && h[k] == input.headers[k])
      && (h != start <==> access.Some? && access.value != "" && Authorization !in start && !IsRefreshUrl(input))
      && (h != start ==> h == start[Authorization := "Bearer " + access.value])
  {
    var start := StartHeaders(input, initHeaders);
    if access.Some? && access.value != "" && Authorization !in start && !IsRefreshUrl(input) {
      assert Authorization in Outgoing(input, initHeaders, access) && Authorization !in start;
    }
  }

  /** Even the unauthenticated client sends the session's bearer token to any target but the refresh endpoint. */
  lemma UnauthenticatedClientSendsToken(env: Option<string>, sessionCookie: string, refreshCookie: string, isProduction: bool,
                                        input: RequestInfo, cookies: map<string, string>, writable: bool,
                                        respond: (nat, Sent) -> Result<Response, string>, refresh: (nat, string) -> Result<WebToken, string>, n: nat)
    requires sessionCookie in cookies && cookies[sessionCookie] != "" && !IsRefreshUrl(input)
    requires !input.RequestInput?
    ensures var c := CreateUnauthenticatedClient(env, sessionCookie, refreshCookie, isProduction);
      var first := Run(c, input, map[], cookies, writable, respond, refresh, n).sent[0];
      first.FetchSent? && Authorization in first.headers && first.headers[Authorization] == "Bearer " + cookies[sessionCookie]
  {
  }

  /** Reading Sent values, how many went to the target and how many to the refresh endpoint. */
  function FetchCount(s: seq<Sent>): nat
  {
    if s == [] then 0 else (if s[0].FetchSent? then 1 else 0) + FetchCount(s[1..])
  }

  function RefreshCount(s: seq<Sent>): nat
  {
    if s == [] then 0 else (if s[0].RefreshSent? then 1 else 0) + RefreshCount(s[1..])
  }

  /** The three shapes an exchange's requests can take, and their counts. */
  lemma CountsOfShapes(a: Sent, b: Sent, d: Sent)
    ensures FetchCount([a]) == (if a.FetchSent? then 1 else 0) && RefreshCount([a]) == (if a.RefreshSent? then 1 else 0)
    ensures FetchCount([a, b]) == FetchCount([a]) + FetchCount([b]) && RefreshCount([a, b]) == RefreshCount([a]) + RefreshCount([b])
    ensures FetchCount([a, b, d]) == FetchCount([a, b]) + FetchCount([d]) && RefreshCount([a, b, d]) == RefreshCount([a, b]) + RefreshCount([d])
  {
    assert [a][1..] == [];
    assert [b][1..] == [];
    assert [d][1..] == [];
    assert [a, b][1..] == [b];
    assert [a, b, d][1..] == [b, d];
    assert [b, d][1..] == [d];
  }

  /** The requests of one call: the first fetch, then possibly the refresh, then possibly the retry. */
  lemma RunShape(c: ClientConfig, input: RequestInfo, initHeaders: Headers, cookies: map<string, string>, writable: bool,
                 respond: (nat, Sent) -> Result<Response, string>, refresh: (nat, string) -> Result<WebToken, string>, n: nat)
    ensures var h := Outgoing(input, initHeaders, if c.sessionCookie in cookies then Some(cookies[c.sessionCookie]) else None);
      var ex := Run(c, input, initHeaders, cookies, writable, respond, refresh, n);
      || ex.sent == [FetchSent(input, h)]
      || (c.refreshCookie in cookies && ex.sent == [FetchSent(input, h), RefreshSent(cookies[c.refreshCookie])])
      || (c.refreshCookie in cookies && exists t: WebToken :: ex.sent == [FetchSent(input, h), RefreshSent(cookies[c.refreshCookie]), FetchSent(input, RetryHeaders(h, t.accessToken))])
  {
    var h := Outgoing(input, initHeaders, if c.sessionCookie in cookies then Some(cookies[c.sessionCookie]) else None);
    var first := FetchSent(input, h);
    match respond(n, first)
    case Err(_) =>
    case Ok(response) =>
      if !ReturnedAsIs(response, h, input) && c.refreshCookie in cookies && cookies[c.refreshCookie] != "" {
        var rt := cookies[c.refreshCookie];
        match refresh(n + 1, rt)
        case Err(_) =>
        case Ok(t) =>
          var second := FetchSent(input, RetryHeaders(h, t.accessToken));
          assert Run(c, input, initHeaders, cookies, writable, respond, refresh, n).sent == [first] + ([RefreshSent(rt)] + [second]);
          assert [first] + ([RefreshSent(rt)] + [second]) == [first, RefreshSent(rt), second];
      }
  }

  /** Each call reaches the target at most twice and the refresh endpoint at most once, and the second fetch only after a refresh answered. */
  lemma AtMostOneRetry(c: ClientConfig, input: RequestInfo, initHeaders: Headers, cookies: map<string, string>, writable: bool,
                       respond: (nat, Sent) -> Result<Response, string>, refresh: (nat, string) -> Result<WebToken, string>, n: nat)
    ensures var ex := Run(c, input, initHeaders, cookies, writable, respond, refresh, n);
      && 1 <= |ex.sent| <= 3
      && FetchCount(ex.sent) <= 2 && RefreshCount(ex.sent) <= 1
      && ex.sent[0].FetchSent? && ex.sent[0].input == input
      && (|ex.sent| >= 2 ==> ex.sent[1].RefreshSent?)
      && (|ex.sent| == 3 ==> ex.sent[2].FetchSent? && ex.sent[2].input == input)
  {
    var ex := Run(c, input, initHeaders, cookies, writable, respond, refresh, n);
    RunShape(c, input, initHeaders, cookies, writable, respond, refresh, n);
    if |ex.sent| == 3 {
      CountsOfShapes(ex.sent[0], ex.sent[1], ex.sent[2]);
      assert ex.sent == [ex.sent[0], ex.sent[1], ex.sent[2]];
    } else if |ex.sent| == 2 {
      CountsOfShapes(ex.sent[0], ex.sent[1], ex.sent[1]);
      assert ex.sent == [ex.sent[0], ex.sent[1]];
    } else {
      CountsOfShapes(ex.sent[0], ex.sent[0], ex.sent[0]);
      assert ex.sent == [ex.sent[0]];
    }
  }

  /** The first response comes back unchanged, and nothing else is sent, when it is not a 401, when the request already carried the marker, or when the target is the refresh endpoint. */
  lemma NonRefreshableReturned(c: ClientConfig, input: RequestInfo, initHeaders: Headers, cookies: map<string, string>, writable: bool,
                               respond: (nat, Sent) -> Result<Response, string>, refresh: (nat, string) -> Result<WebToken, string>, n: nat)
    requires var h := Outgoing(input, initHeaders, if c.sessionCookie in cookies then Some(cookies[c.sessionCookie]) else None);
      respond(n, FetchSent(input, h)).Ok? && ReturnedAsIs(respond(n, FetchSent(input, h)).value, h, input)
    ensures var h := Outgoing(input, initHeaders, if c.sessionCookie in cookies then Some(cookies[c.sessionCookie]) else None);
      Run(c, input, initHeaders, cookies, writable, respond, refresh, n) == Exchange(respond(n, FetchSent(input, h)), [FetchSent(input, h)], [])
  {
  }

  /** With no refresh cookie, or when the refresh throws, the original 401 comes back and no cookie is written. */
  lemma RefreshUnavailable(c: ClientConfig, input: RequestInfo, initHeaders: Headers, cookies: map<string, string>, writable: bool,
                           respond: (nat, Sent) -> Result<Response, string>, refresh: (nat, string) -> Result<WebToken, string>, n: nat)
    requires var h := Outgoing(input, initHeaders, if c.sessionCookie in cookies then Some(cookies[c.sessionCookie]) else None);
      respond(n, FetchSent(input, h)).Ok? && !ReturnedAsIs(respond(n, FetchSent(input, h)).value, h, input)
    requires c.refreshCookie !in cookies || cookies[c.refreshCookie] == "" || refresh(n + 1, cookies[c.refreshCookie]).Err?
    ensures var h := Outgoing(input, initHeaders, if c.sessionCookie in cookies then Some(cookies[c.sessionCookie]) else None);
      var ex := Run(c, input, initHeaders, cookies, writable, respond, refresh, n);
      ex.result == respond(n, FetchSent(input, h)) && ex.writes == [] && FetchCount(ex.sent) == 1
  {
    var h := Outgoing(input, initHeaders, if c.sessionCookie in cookies then Some(cookies[c.sessionCookie]) else None);
    var ex := Run(c, input, initHeaders, cookies, writable, respond, refresh, n);
    if c.refreshCookie !in cookies || cookies[c.refreshCookie] == "" {
      assert ex.sent == [FetchSent(input, h)];
    } else {
      assert ex.sent == [FetchSent(input, h)] + [RefreshSent(cookies[c.refreshCookie])];
      CountsOfShapes(FetchSent(input, h), RefreshSent(cookies[c.refreshCookie]), RefreshSent(""));
    }
    CountsOfShapes(FetchSent(input, h), RefreshSent(""), RefreshSent(""));
  }

  /** After a refresh the retry carries the new bearer token and the marker over the first request's headers, and its answer is returned whatever its status; a retry that throws gives back the original 401. */
  lemma RetryAfterRefresh(c: ClientConfig, input: RequestInfo, initHeaders: Headers, cookies: map<string, string>, writable: bool,
                          respond: (nat, Sent) -> Result<Response, string>, refresh: (nat, string) -> Result<WebToken, string>, n: nat)
    requires var h := Outgoing(input, initHeaders, if c.sessionCookie in cookies then Some(cookies[c.sessionCookie]) else None);
      respond(n, FetchSent(input, h)).Ok? && !ReturnedAsIs(respond(n, FetchSent(input, h)).value, h, input)
    requires c.refreshCookie in cookies && cookies[c.refreshCookie] != "" && refresh(n + 1, cookies[c.refreshCookie]).Ok?
    ensures var h := Outgoing(input, initHeaders, if c.sessionCookie in cookies then Some(cookies[c.sessionCookie]) else None);
      var t := refresh(n + 1, cookies[c.refreshCookie]).value;
      var ex := Run(c, input, initHeaders, cookies, writable, respond, refresh, n);
      var rh := ex.sent[2].headers;
      && |ex.sent| == 3 && ex.sent[2].FetchSent?
      && rh[Authorization] == "Bearer " + t.accessToken && rh[RetryMarker] == "1"
      && (forall k :: k in h && k != Authorization && k != RetryMarker ==> k in rh && rh[k] == h[k])
      && (respond(n + 2, ex.sent[2]).Ok? ==> ex.result == respond(n + 2, ex.sent[2]))
      && (respond(n + 2, ex.sent[2]).Err? ==> ex.result == respond(n, FetchSent(input, h)))
  {
  }

  /** The cookie writes after a refresh: none when the store refuses, else the session cookie always and the refresh cookie only with a new refresh token, all httpOnly, SameSite lax, path "/" and secure in production. */
  lemma RefreshedCookies(writable: bool, c: ClientConfig, t: WebToken)
    ensures var ws := TokenWrites(writable, c.sessionCookie, c.refreshCookie, c.isProduction, t);
      && (!writable ==> ws == [])
      && (writable ==> |ws| >= 1 && ws[0].name == c.sessionCookie && ws[0].value == t.accessToken
                       && ws[0].options.maxAge == Some(t.expiresIn as real))
      && (writable ==> (|ws| == 2 <==> t.refreshToken != "") && |ws| <= 2)
      && (|ws| == 2 ==> ws[1].name == c.refreshCookie && ws[1].value == t.refreshToken
                        && ws[1].options.maxAge == Some(t.refreshExpiresIn as real))
      && forall i :: 0 <= i < |ws| ==> ws[i].options.httpOnly && ws[i].options.secure == c.isProduction
                                       && ws[i].options.sameSite == Some(SameSiteLax) && ws[i].options.path == Some("/")
  {
  }
}
