// The web app's edge middleware: requests to protected pages without an
// access token are sent to the login page, requests to the login and signup
// pages with one are sent to the flows page, and every other request passes
// through with the security headers and the Content-Security-Policy set.
module WebMiddleware {
  import opened Wrappers
  import opened Text
  import opened Security

  const AuthRoutes: seq<string> := ["/login", "/signup"]
  const AccessCookie := "access_token"
  const LoginPath := "/login"
  const FlowsPath := "/flows"
  const CspName := "Content-Security-Policy"

  /** `authRoutes.some(route => pathname.startsWith(route))`. */
  predicate IsAuthRoute(pathname: string)
  {
    exists k :: 0 <= k < |AuthRoutes| && StartsWith(pathname, AuthRoutes[k])
  }

  /** Whether `request.cookies.get('access_token')?.value` is truthy. */
  predicate HasToken(cookies: map<string, string>)
  {
    AccessCookie in cookies && cookies[AccessCookie] != ""
  }

  /** What the response is: a redirect to a same-origin path with query parameters, or the request passed on. */
  datatype Kind = Redirect(path: string, query: seq<(string, string)>) | Next

  /** A response: its kind and the headers set on it. */
  datatype Outcome = Outcome(kind: Kind, headers: map<string, string>)

  /** Setting headers one after another, a later value replacing an earlier one. */
  function SetAll(h: map<string, string>, pairs: seq<(string, string)>): map<string, string>
    decreases |pairs|
  {
    if pairs == [] then h else SetAll(h[pairs[0].0 := pairs[0].1], pairs[1..])
  }

  /** The headers of a passed-through response. */
  function PassHeaders(isProduction: bool, workerEnv: Option<string>): map<string, string>
  {
    SetAll(SetAll(map[], SecurityHeaders), [(CspName, GenerateCspHeader(isProduction, workerEnv))])
  }

  /** What the middleware answers. */
  function Expected(pathname: string, cookies: map<string, string>, isProduction: bool, workerEnv: Option<string>): Outcome
  {
    var auth, token := IsAuthRoute(pathname), HasToken(cookies);
    if !auth && !token then Outcome(Redirect(LoginPath, [("redirect", pathname)]), map[])
    else if auth && token then Outcome(Redirect(FlowsPath, []), map[])
    else Outcome(Next, PassHeaders(isProduction, workerEnv))
  }

  /** The headers of `NextResponse.next()`. */
  class ResponseHeaders {
    var entries: map<string, string>

    constructor ()
      ensures entries == map[]
    {
      entries := map[];
    }

    /** `headers.set(name, value)`. */
    method Set(name: string, value: string)
      modifies this
      ensures entries == old(entries)[name := value]
    {
      entries := entries[name := value];
    }
  }

  /** `middleware(request)`. */
  method Middleware(pathname: string, cookies: map<string, string>, isProduction: bool, workerEnv: Option<string>)
    returns (r: Outcome)
    ensures r == Expected(pathname, cookies, isProduction, workerEnv)
  {
    var response := new ResponseHeaders();
    var isAuthRoute := IsAuthRoute(pathname);
    var accessToken := if AccessCookie in cookies then Some(cookies[AccessCookie]) else None;
    if !isAuthRoute && (accessToken.None? || accessToken.value == "") {
      return Outcome(Redirect(LoginPath, [("redirect", pathname)]), map[]);
    }
    if isAuthRoute && accessToken.Some? && accessToken.value != "" {
      return Outcome(Redirect(FlowsPath, []), map[]);
    }
    var i := 0;
    while i < |SecurityHeaders|
      invariant 0 <= i <= |SecurityHeaders|
      invariant SetAll(response.entries, SecurityHeaders[i..]) == SetAll(map[], SecurityHeaders)
    {
      assert SecurityHeaders[i..][1..] == SecurityHeaders[i + 1..];
      response.Set(SecurityHeaders[i].0, SecurityHeaders[i].1);
      i := i + 1;
    }
    assert SecurityHeaders[i..] == [];
    ghost var before := response.entries;
    response.Set(CspName, GenerateCspHeader(isProduction, workerEnv));
    assert SetAll(before, [(CspName, GenerateCspHeader(isProduction, workerEnv))]) == response.entries by {
      assert [(CspName, GenerateCspHeader(isProduction, workerEnv))][1..] == [];
    }
    r := Outcome(Next, response.entries);
  }

  // ----------------------------------------------------------- properties

  /** The auth routes are the paths starting with "/login" or "/signup", so "/login-help" is one too. */
  lemma AuthRoutePrefix(pathname: string)
    ensures IsAuthRoute(pathname) <==> StartsWith(pathname, "/login") || StartsWith(pathname, "/signup")
    ensures IsAuthRoute("/login" + pathname) && IsAuthRoute("/signup" + pathname)
  {
    assert AuthRoutes[0] == "/login" && AuthRoutes[1] == "/signup";
    PrefixStarts("/login", pathname);
    PrefixStarts("/signup", pathname);
  }

  /** The names a sequence of pairs sets. */
  function Names(pairs: seq<(string, string)>): (r: set<string>)
    ensures forall i :: 0 <= i < |pairs| ==> pairs[i].0 in r
    ensures forall x :: x in r ==> exists i :: 0 <= i < |pairs| && pairs[i].0 == x
  {
    if pairs == [] then {} else {pairs[0].0} + Names(pairs[1..])
  }

  /** Whether no name is set twice. */
  predicate DistinctNames(pairs: seq<(string, string)>)
  {
    forall i, j :: 0 <= i < j < |pairs| ==> pairs[i].0 != pairs[j].0
  }

  /** Setting distinct names one after another leaves each name with its value and adds exactly those names. */
  lemma {:induction false} SetAllDistinct(h: map<string, string>, pairs: seq<(string, string)>)
    requires DistinctNames(pairs)
    ensures var r := SetAll(h, pairs);
      && r.Keys == h.Keys + Names(pairs)
      && (forall i :: 0 <= i < |pairs| ==> r[pairs[i].0] == pairs[i].1)
      && (forall k :: k in h && k !in Names(pairs) ==> r[k] == h[k])
    decreases |pairs|
  {
    if pairs != [] {
      var h' := h[pairs[0].0 := pairs[0].1];
      var tail := pairs[1..];
      assert DistinctNames(tail) by {
        forall i, j | 0 <= i < j < |tail| ensures tail[i].0 != tail[j].0 {
          assert tail[i] == pairs[i + 1] && tail[j] == pairs[j + 1];
        }
      }
      SetAllDistinct(h', tail);
      var r := SetAll(h, pairs);
      assert pairs[0].0 !in Names(tail);
      forall i | 0 <= i < |pairs|
        ensures r[pairs[i].0] == pairs[i].1
      {
        if i > 0 {
          assert tail[i - 1] == pairs[i];
        }
      }
    }
  }

  lemma SecurityHeaderNames()
    ensures DistinctNames(SecurityHeaders)
    ensures CspName !in Names(SecurityHeaders)
  {
    var n := seq(|SecurityHeaders|, i requires 0 <= i < |SecurityHeaders| => SecurityHeaders[i].0);
    assert |n[0]| == 22 && |n[1]| == 15 && |n[2]| == 16 && |n[3]| == 15 && |n[4]| == 18 && |CspName| == 23;
    assert n[1][0] != n[3][0];
    forall i, j | 0 <= i < j < |SecurityHeaders|
      ensures SecurityHeaders[i].0 != SecurityHeaders[j].0
    {
      assert n[i] == SecurityHeaders[i].0 && n[j] == SecurityHeaders[j].0;
    }
    forall i | 0 <= i < |SecurityHeaders|
      ensures SecurityHeaders[i].0 != CspName
    {
      assert n[i] == SecurityHeaders[i].0;
    }
  }

  /** Distinct names followed by one more name. */
  lemma SetAllThenOne(pairs: seq<(string, string)>, name: string, value: string)
    requires DistinctNames(pairs) && name !in Names(pairs)
    ensures var h := SetAll(SetAll(map[], pairs), [(name, value)]);
      && h.Keys == Names(pairs) + {name}
      && (forall i :: 0 <= i < |pairs| ==> h[pairs[i].0] == pairs[i].1)
      && h[name] == value
  {
    SetAllDistinct(map[], pairs);
    var h1 := SetAll(map[], pairs);
    assert SetAll(h1, [(name, value)]) == h1[name := value] by {
      assert [(name, value)][1..] == [];
    }
  }

  /** A passed-through response carries every configured security header with its value, the Content-Security-Policy, and nothing else. */
  lemma PassThroughHeaders(isProduction: bool, workerEnv: Option<string>)
    ensures var h := PassHeaders(isProduction, workerEnv);
      && h.Keys == Names(SecurityHeaders) + {CspName}
      && (forall i :: 0 <= i < |SecurityHeaders| ==> h[SecurityHeaders[i].0] == SecurityHeaders[i].1)
      && h[CspName] == GenerateCspHeader(isProduction, workerEnv)
  {
    SecurityHeaderNames();
    SetAllThenOne(SecurityHeaders, CspName, GenerateCspHeader(isProduction, workerEnv));
  }

  /** The four cases: without a token a protected page goes to /login?redirect=<path>, with one an auth page goes to /flows, and the rest passes through. */
  lemma Cases(pathname: string, cookies: map<string, string>, isProduction: bool, workerEnv: Option<string>)
    ensures var o := Expected(pathname, cookies, isProduction, workerEnv);
      && (o.kind == Redirect(LoginPath, [("redirect", pathname)]) <==> !IsAuthRoute(pathname) && !HasToken(cookies))
      && (o.kind == Redirect(FlowsPath, []) <==> IsAuthRoute(pathname) && HasToken(cookies))
      && (o.kind == Next <==> IsAuthRoute(pathname) != HasToken(cookies))
      && (o.kind == Next ==> o.headers == PassHeaders(isProduction, workerEnv))
  {
    assert LoginPath != FlowsPath by { assert LoginPath[1] != FlowsPath[1]; }
  }

  /** A redirect carries none of the security headers and no Content-Security-Policy. */
  lemma RedirectsUnprotected(pathname: string, cookies: map<string, string>, isProduction: bool, workerEnv: Option<string>)
    ensures var o := Expected(pathname, cookies, isProduction, workerEnv);
      o.kind.Redirect? ==> CspName !in o.headers && forall i :: 0 <= i < |SecurityHeaders| ==> SecurityHeaders[i].0 !in o.headers
  {
  }

  /** The decision depends only on whether the path is an auth route and whether there is a token; only the login redirect mentions the path. */
  lemma DependsOnlyOnPair(p1: string, c1: map<string, string>, p2: string, c2: map<string, string>, isProduction: bool, workerEnv: Option<string>)
    requires IsAuthRoute(p1) == IsAuthRoute(p2) && HasToken(c1) == HasToken(c2)
    ensures var o1, o2 := Expected(p1, c1, isProduction, workerEnv), Expected(p2, c2, isProduction, workerEnv);
      && o1.headers == o2.headers
      && o1.kind.Redirect? == o2.kind.Redirect?
      && (o1.kind.Redirect? ==> o1.kind.path == o2.kind.path)
      && (o1.kind != o2.kind ==> o1.kind.Redirect? && o1.kind.query == [("redirect", p1)] && o2.kind.query == [("redirect", p2)])
  {
  }
}
