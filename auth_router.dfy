// The authentication endpoints: registration, login (tokens in the body for
// mobile clients, HttpOnly cookies for web clients), refresh and role update,
// each mapping the service's failures to HTTP errors.
module AuthRouter {
  import opened Wrappers
  import opened Text
  import opened Json
  import opened Models
  import opened AuthUtils
  import opened AuthService

  // -------------------------------------------------------------- register

  /** The creator role passed to the service: none for the bootstrap stand-in, otherwise the caller's role. */
  function CreatorRole(current: UserRecord): (r: Option<UserRole>)
    ensures r.None? <==> current.email == BootstrapEmail
    ensures r.Some? ==> r.value == current.role
  {
    if current.email == BootstrapEmail then None else Some(current.role)
  }

  /** Once a user exists only a registered caller can register anyone, and only an administrator an administrator; while the table is empty only the stand-in can. */
  lemma RegistrationNeedsAdminCaller(count: nat, requested: Option<UserRole>, current: UserRecord)
    ensures count > 0 ==>
      (NewUserRole(count, Some(Admin), CreatorRole(current)).Ok? <==> current.email != BootstrapEmail && current.role == Admin)
    ensures count > 0 && NewUserRole(count, requested, CreatorRole(current)).Ok? ==> current.email != BootstrapEmail
    ensures count == 0 ==> (NewUserRole(count, requested, CreatorRole(current)).Ok? <==> current.email == BootstrapEmail)
  {
  }

  /** `register_user`; `current` is what the `require_admin_or_first_user` dependency resolved to, so its errors come first. */
  method RegisterUser(store: UserStore, data: UserCreate, current: Result<UserRecord, HttpError>, newId: string, hash: string -> string)
    returns (r: Result<UserRead, HttpError>)
    modifies store
    ensures current.Err? ==> r == Err(current.error) && store.users == old(store.users)
    ensures current.Ok? ==>
      var role := NewUserRole(|old(store.users)|, data.role, CreatorRole(current.value));
      && (role.Err? ==> r == Err(HttpError(400, role.error)) && store.users == old(store.users))
      && (role.Ok? ==> var u := UserRecord(newId, data.email, data.name, hash(data.password), role.value);
                       r == Ok(ToRead(u)) && store.users == old(store.users) + [u])
  {
    if current.Err? {
      return Err(current.error);
    }
    var created := store.CreateUser(data, CreatorRole(current.value), newId, hash);
    if created.Err? {
      return Err(HttpError(400, created.error));
    }
    r := Ok(ToRead(created.value));
  }

  /** A registered user who takes the bootstrap e-mail still cannot register anyone once the table is not empty. */
  lemma BootstrapEmailCannotRegister(count: nat, requested: Option<UserRole>, current: UserRecord)
    requires count > 0 && current.email == BootstrapEmail
    ensures NewUserRole(count, requested, CreatorRole(current)) == Err(CreatorRequired)
  {
  }

  /** The very first registration, through the stand-in administrator, creates an administrator. */
  lemma FirstRegistrationIsAdmin(j: Jwt, token: Option<string>, dummyId: string, requested: Option<UserRole>)
    ensures var c := GetCurrentUserOrFirstAdmin(j, token, [], dummyId);
      c.Ok? && RequireAdminOrFirstUser(c.value).Ok?
      && NewUserRole(0, requested, CreatorRole(RequireAdminOrFirstUser(c.value).value)) == Ok(Admin)
  {
    EmptyStoreAdmitsRegistration(j, token, dummyId);
  }

  // ----------------------------------------------------------------- login

  /** `settings.cookie_secure`, `cookie_samesite` and `cookie_max_age`; the last is the setting the web branch expects, which Settings does not declare (see `WebLoginRaisesAsWritten`). */
  datatype CookieSettings = CookieSettings(secure: bool, sameSite: string, maxAge: Option<int>)

  /** One `Set-Cookie` written by `response.set_cookie`. */
  datatype SetCookie = SetCookie(key: string, value: string, httpOnly: bool, secure: bool, sameSite: string, maxAge: int)

  /** The response object that the endpoint writes cookies to. */
  class Response {
    var cookies: seq<SetCookie>

    constructor ()
      ensures cookies == []
    {
      cookies := [];
    }

    method SetCookieHeader(c: SetCookie)
      modifies this
      ensures cookies == old(cookies) + [c]
    {
      cookies := cookies + [c];
    }
  }

  /** The login body: the tokens for mobile clients, a greeting for web clients. */
  datatype LoginBody = TokenBody(tokens: Token) | WebLogin(message: string, email: string, role: string)

  /** `X-Client-Type`, lower-cased, with "web" as the default. */
  function ClientType(header: Option<string>): (r: string)
    ensures header.None? ==> r == "web"
    ensures header.Some? ==> r == Lower(header.value)
  {
    Lower(header.GetOr("web"))
  }

  /** The client type is lower-case and ignores the header's case: a client is mobile exactly when its header spells "mobile" in some case. */
  lemma ClientTypeIgnoresCase(h: string)
    ensures ClientType(Some(Lower(h))) == ClientType(Some(h))
    ensures Lower(ClientType(Some(h))) == ClientType(Some(h))
    ensures ClientType(Some(h)) == "mobile" <==> Lower(h) == "mobile"
  {
    LowerIdempotent(h);
  }

  /** `settings.cookie_max_age or default`. */
  function MaxAge(settings: CookieSettings, default: int): (r: int)
    ensures settings.maxAge.None? || settings.maxAge.value == 0 ==> r == default
    ensures settings.maxAge.Some? && settings.maxAge.value != 0 ==> r == settings.maxAge.value
  {
    if settings.maxAge.Some? && settings.maxAge.value != 0 then settings.maxAge.value else default
  }

  /** The two cookies of a web login, both HttpOnly. */
  function LoginCookies(settings: CookieSettings, t: Token): (r: seq<SetCookie>)
    ensures |r| == 2 && r[0].key == "access_token" && r[1].key == "refresh_token"
    ensures r[0].value == t.accessToken && r[1].value == t.refreshToken
    ensures forall i :: 0 <= i < 2 ==> r[i].httpOnly && r[i].secure == settings.secure && r[i].sameSite == settings.sameSite
    ensures r[0].maxAge == MaxAge(settings, t.expiresIn) && r[1].maxAge == MaxAge(settings, t.refreshExpiresIn)
  {
    [SetCookie("access_token", t.accessToken, true, settings.secure, settings.sameSite, MaxAge(settings, t.expiresIn)),
     SetCookie("refresh_token", t.refreshToken, true, settings.secure, settings.sameSite, MaxAge(settings, t.refreshExpiresIn))]
  }

  /** A configured non-zero max age replaces both token lifetimes, so the two cookies expire together exactly when one is configured or the lifetimes agree; without one each cookie lives as long as its token. */
  lemma CookieLifetimes(settings: CookieSettings, t: Token)
    ensures var r := LoginCookies(settings, t);
      r[0].maxAge == r[1].maxAge <==> (settings.maxAge.Some? && settings.maxAge.value != 0) || t.expiresIn == t.refreshExpiresIn
    ensures settings.maxAge.None? ==> LoginCookies(settings, t)[0].maxAge == t.expiresIn && LoginCookies(settings, t)[1].maxAge == t.refreshExpiresIn
  {
  }

  /** The refresh cookie of a web login is a working refresh token: handing it to the refresh endpoint gives the user fresh tokens. */
  lemma WebLoginCookieRefreshes(store: UserStore, j: Jwt, user: UserRecord, settings: CookieSettings,
                                now: int, aJti: string, rJti: string, later: int, aJti2: string, rJti2: string)
    requires user in store.users && FindById(store.users, user.id) == Some(user)
    requires j.uuid(user.id) == Some(user.id)
    requires RoundTrips(j, TokenClaims(Refresh, UserClaims(user.id, user.email, user.role), None, now, rJti))
    ensures var cookie := LoginCookies(settings, CreateUserTokens(j, user, now, aJti, rJti))[1];
      cookie.key == "refresh_token"
      && RefreshAccessToken(store, j, cookie.value, later, aJti2, rJti2) == Ok(CreateUserTokens(j, user, later, aJti2, rJti2))
  {
    RefreshRoundTrip(store, j, user, now, aJti, rJti, later, aJti2, rJti2);
  }

  /** `login`: `verify` checks a password against a hash; `now` and the two jtis feed token creation. */
  method Login(store: UserStore, response: Response, email: string, password: string, verify: (string, string) -> bool,
               clientType: Option<string>, settings: CookieSettings, j: Jwt, now: int, aJti: string, rJti: string)
    returns (r: Result<LoginBody, HttpError>)
    modifies response
    ensures var u := store.AuthenticateUser(email, password, verify);
      && (u.None? ==> r == Err(Unauthorized("Incorrect email or password")) && response.cookies == old(response.cookies))
      && (u.Some? && ClientType(clientType) == "mobile" ==>
            r == Ok(TokenBody(CreateUserTokens(j, u.value, now, aJti, rJti))) && response.cookies == old(response.cookies))
      && (u.Some? && ClientType(clientType) != "mobile" ==>
            && r == Ok(WebLogin("Login successful", u.value.email, RoleName(u.value.role)))
            && response.cookies == old(response.cookies) + LoginCookies(settings, CreateUserTokens(j, u.value, now, aJti, rJti)))
  {
    var user := store.AuthenticateUser(email, password, verify);
    if user.None? {
      return Err(Unauthorized("Incorrect email or password"));
    }
    var tokens := CreateUserTokens(j, user.value, now, aJti, rJti);
    if ClientType(clientType) == "mobile" {
      return Ok(TokenBody(tokens));
    }
    response.SetCookieHeader(SetCookie("access_token", tokens.accessToken, true, settings.secure, settings.sameSite,
                                       MaxAge(settings, tokens.expiresIn)));
    response.SetCookieHeader(SetCookie("refresh_token", tokens.refreshToken, true, settings.secure, settings.sameSite,
                                       MaxAge(settings, tokens.refreshExpiresIn)));
    r := Ok(WebLogin("Login successful", user.value.email, RoleName(user.value.role)));
  }

  /** The client type ignores case: "Mobile" and "MOBILE" get the token body. */
  lemma MobileIgnoresCase()
    ensures ClientType(Some("Mobile")) == "mobile" && ClientType(Some("MOBILE")) == "mobile"
    ensures ClientType(None) == "web"
  {
    assert Lower("Mobile") == "mobile";
    assert Lower("MOBILE") == "mobile";
    LowerOfLowerLiteral("web");
  }

  // ------------------------------------------------- web login as written

  /** The attribute names the web branch reads that are declared: on `settings`, and on the `Token` that `create_user_tokens` returns. */
  datatype Declared = Declared(settings: set<string>, token: set<string>)

  /** As declared: Settings (config.py) has `cookie_secure` and `cookie_samesite` but no `cookie_max_age`, and utils/auth.py's `Token` keeps only the two tokens and `token_type`, dropping the lifetimes `create_user_tokens` passes it. */
  const AsDeclared := Declared({"cookie_secure", "cookie_samesite"}, {"access_token", "refresh_token", "token_type"})

  /** What the web branch expects: a `cookie_max_age` setting and a `Token` that keeps both lifetimes. */
  const Expected := Declared(AsDeclared.settings + {"cookie_max_age"}, AsDeclared.token + {"expires_in", "refresh_expires_in"})

  /** One `set_cookie` call as Python evaluates its arguments in order: reading an undeclared attribute raises AttributeError, named by the error, before the cookie is set; the token's lifetime `lifetime` is read only when the configured max age is falsy. */
  function CookieAsWritten(d: Declared, settings: CookieSettings, key: string, tokenField: string, value: string, lifetime: string, seconds: int)
    : (r: Result<SetCookie, string>)
    ensures r.Ok? ==> r.value.key == key && r.value.value == value && r.value.httpOnly
    ensures r.Err? ==> ((r.error == tokenField || r.error == lifetime) && r.error !in d.token)
                       || (r.error in ["cookie_secure", "cookie_samesite", "cookie_max_age"] && r.error !in d.settings)
    ensures (forall a <- ["cookie_secure", "cookie_samesite", "cookie_max_age"] :: a in d.settings) && tokenField in d.token && lifetime in d.token
            ==> r.Ok?
  {
    if tokenField !in d.token then Err(tokenField)
    else if "cookie_secure" !in d.settings then Err("cookie_secure")
    else if "cookie_samesite" !in d.settings then Err("cookie_samesite")
    else if "cookie_max_age" !in d.settings then Err("cookie_max_age")
    else if settings.maxAge.Some? && settings.maxAge.value != 0 then
      Ok(SetCookie(key, value, true, settings.secure, settings.sameSite, settings.maxAge.value))
    else if lifetime !in d.token then Err(lifetime)
    else Ok(SetCookie(key, value, true, settings.secure, settings.sameSite, seconds))
  }

  /** The web branch of `login` as written: the cookies set before an AttributeError, and the missing attribute, if any; FastAPI answers the error with a 500. */
  function WebCookiesAsWritten(d: Declared, settings: CookieSettings, t: Token): (r: (seq<SetCookie>, Option<string>))
    ensures |r.0| <= 2 && (r.1.None? <==> |r.0| == 2)
    ensures |r.0| >= 1 ==> r.0[0].key == "access_token" && r.0[0].value == t.accessToken
  {
    match CookieAsWritten(d, settings, "access_token", "access_token", t.accessToken, "expires_in", t.expiresIn)
    case Err(a) => ([], Some(a))
    case Ok(c0) =>
      match CookieAsWritten(d, settings, "refresh_token", "refresh_token", t.refreshToken, "refresh_expires_in", t.refreshExpiresIn)
      case Err(a) => ([c0], Some(a))
      case Ok(c1) => ([c0, c1], None)
  }

  /** As declared, every web login raises AttributeError for `cookie_max_age` before any cookie is set, whatever the settings and tokens. */
  lemma WebLoginRaisesAsWritten(settings: CookieSettings, t: Token)
    ensures WebCookiesAsWritten(AsDeclared, settings, t) == ([], Some("cookie_max_age"))
  {
  }

  /** Declaring `cookie_max_age` alone is not enough: unless a non-zero max age is configured, the token's missing `expires_in` raises next, again before any cookie. */
  lemma MaxAgeAloneStillRaises(settings: CookieSettings, t: Token)
    ensures var d := Declared(Expected.settings, AsDeclared.token);
      && (settings.maxAge.None? || settings.maxAge.value == 0 ==> WebCookiesAsWritten(d, settings, t) == ([], Some("expires_in")))
      && (settings.maxAge.Some? && settings.maxAge.value != 0 ==> WebCookiesAsWritten(d, settings, t) == (LoginCookies(settings, t), None))
  {
  }

  /** With the attributes the branch expects, it sets exactly the two cookies `LoginCookies` gives, which `Login` writes. */
  lemma ExpectedGivesLoginCookies(settings: CookieSettings, t: Token)
    ensures WebCookiesAsWritten(Expected, settings, t) == (LoginCookies(settings, t), None)
  {
  }

  // --------------------------------------------------------------- refresh

  /** What the refresh body can raise: an HTTP error, a PyJWT expired-signature or invalid-token error, a ValueError, or anything else. */
  datatype Raised = RaisedHttp(error: HttpError) | RaisedJwt | RaisedValue(message: string) | RaisedOther

  /** The handler chain of `refresh_access_token`. */
  function MapRefreshFailure(e: Raised): (r: HttpError)
    ensures e.RaisedHttp? ==> r == e.error
    ensures e.RaisedJwt? ==> r == Unauthorized("Invalid refresh token")
    ensures e.RaisedValue? || e.RaisedOther? ==> r == HttpError(500, "Failed to refresh token")
  {
    match e
    case RaisedHttp(h) => h
    case RaisedJwt => Unauthorized("Invalid refresh token")
    case _ => HttpError(500, "Failed to refresh token")
  }

  /** A failed refresh is the verifier's own HTTP error or the generic 500; nothing else reaches the client, and a token that verifies never gives 401. */
  lemma RefreshFailureIsVerifierOr500(store: UserStore, j: Jwt, refreshToken: string, now: int, aJti: string, rJti: string)
    ensures var r := RefreshAccessToken(store, j, refreshToken, now, aJti, rJti);
      r.Err? ==> (VerifyRefreshToken(j, refreshToken).Err? && r.error == VerifyRefreshToken(j, refreshToken).error)
                 || (VerifyRefreshToken(j, refreshToken).Ok? && r.error == HttpError(500, "Failed to refresh token"))
  {
  }

  function AsRaised(f: AuthFailure): Raised
  {
    match f
    case HttpFailure(h) => RaisedHttp(h)
    case ValueFailure(m) => RaisedValue(m)
  }

  /** `refresh_access_token`. */
  function RefreshAccessToken(store: UserStore, j: Jwt, refreshToken: string, now: int, aJti: string, rJti: string)
    : (r: Result<Token, HttpError>)
    reads store
    ensures VerifyRefreshToken(j, refreshToken).Err? ==> r == Err(VerifyRefreshToken(j, refreshToken).error)
    ensures r.Ok? <==> store.RefreshUserTokens(j, refreshToken, now, aJti, rJti).Ok?
    ensures r.Ok? ==> r.value == store.RefreshUserTokens(j, refreshToken, now, aJti, rJti).value
  {
    match store.RefreshUserTokens(j, refreshToken, now, aJti, rJti)
    case Ok(t) => Ok(t)
    case Err(f) => Err(MapRefreshFailure(AsRaised(f)))
  }

  /** A valid refresh token whose user has since been deleted gives 500, not 401. */
  lemma DeletedUserRefreshIs500(store: UserStore, j: Jwt, refreshToken: string, now: int, aJti: string, rJti: string)
    requires VerifyRefreshToken(j, refreshToken).Ok?
    requires FindById(store.users, VerifyRefreshToken(j, refreshToken).value.userId.value).None?
    ensures RefreshAccessToken(store, j, refreshToken, now, aJti, rJti) == Err(HttpError(500, "Failed to refresh token"))
  {
  }

  /** A token that does not decode gives 401 "Invalid refresh token", from the verifier itself. */
  lemma UndecodableRefreshIs401(store: UserStore, j: Jwt, refreshToken: string, now: int, aJti: string, rJti: string)
    requires j.decode(refreshToken).None?
    ensures RefreshAccessToken(store, j, refreshToken, now, aJti, rJti) == Err(Unauthorized("Invalid refresh token"))
  {
  }

  // ----------------------------------------------------------- update role

  /** The ValueError handler of `update_user_role`. */
  function MapRoleFailure(message: string): (r: HttpError)
    ensures Contains(message, "Only administrators") ==> r == HttpError(403, message)
    ensures !Contains(message, "Only administrators") ==> r == HttpError(400, message)
  {
    if Contains(message, "Only administrators") then HttpError(403, message) else HttpError(400, message)
  }

  /** A refused role update keeps the service's message and is a 403 or a 400, the 403 exactly for a message about administrators. */
  lemma RoleFailureKeepsMessage(message: string)
    ensures MapRoleFailure(message).detail == message
    ensures MapRoleFailure(message).status in {400, 403}
    ensures MapRoleFailure(message).status == 403 <==> Contains(message, "Only administrators")
  {
  }

  /** `update_user_role`; `current` is what `get_current_user` resolved to, and `check_admin_role` runs before the body. */
  method UpdateUserRoleEndpoint(store: UserStore, userId: string, newRole: UserRole, current: Result<UserRecord, HttpError>)
    returns (r: Result<UserRead, HttpError>)
    modifies store
    ensures current.Err? ==> r == Err(current.error) && store.users == old(store.users)
    ensures current.Ok? && current.value.role != Admin ==> r == Err(HttpError(403, "Not enough permissions")) && store.users == old(store.users)
    ensures current.Ok? && current.value.role == Admin && IndexOfId(old(store.users), userId).None? ==>
      r == Err(HttpError(404, "User not found")) && store.users == old(store.users)
    ensures current.Ok? && current.value.role == Admin && IndexOfId(old(store.users), userId).Some? ==>
      var i := IndexOfId(old(store.users), userId).value;
      && store.users == old(store.users)[i := old(store.users)[i].(role := newRole)]
      && r == Ok(ToRead(store.users[i]))
  {
    if current.Err? {
      return Err(current.error);
    }
    var admin := CheckAdminRole(current.value);
    if admin.Err? {
      return Err(admin.error);
    }
    var updated := store.UpdateUserRole(userId, newRole, admin.value.role);
    match updated
    case Err(message) => r := Err(MapRoleFailure(message));
    case Ok(None) => r := Err(HttpError(404, "User not found"));
    case Ok(Some(u)) => r := Ok(ToRead(u));
  }

  /** The service's own refusal would map to 403, since its message names administrators; the admin dependency already refuses earlier. */
  lemma RoleRefusalIs403()
    ensures MapRoleFailure(AdminUpdatesRoles) == HttpError(403, AdminUpdatesRoles)
  {
    var m := AdminUpdatesRoles;
    assert StartsWith(m[0..], "Only administrators");
  }
}
