// JWT helpers and the authentication dependencies: tokens are claim sets
// stamped with a type, verification checks the claims in a fixed order, and
// the dependencies turn a bearer credential into a stored user.
module AuthUtils {
  import opened Wrappers
  import opened Json
  import opened Models

  const AccessTokenExpireMinutes := 30
  const RefreshTokenExpireDays := 7
  /** The e-mail address of the stand-in administrator used before any user exists. */
  const BootstrapEmail := "system@yeetflow.local"

  /**
   * The token library and the UUID parser, which the model does not open up.
   * `encode` signs a claim set; `decode` gives the claims back, or None for a
   * signature, expiry or format error (PyJWTError); `uuid` parses a UUID and
   * gives its canonical string, or None when `UUID(sub)` raises.
   */
  datatype Jwt = Jwt(encode: Dict -> string, decode: string -> Option<Dict>, uuid: string -> Option<string>)

  /** `encode` followed by `decode` gives a claim set back (a token still within its lifetime). */
  ghost predicate RoundTrips(j: Jwt, claims: Dict)
  {
    j.decode(j.encode(claims)) == Some(claims)
  }

  /** `TokenData`. */
  datatype TokenData = TokenData(userId: Option<string>, email: Option<string>, role: Option<UserRole>)

  /** The response of a successful login or refresh; times are seconds. */
  datatype Token = Token(accessToken: string, refreshToken: string, tokenType: string,
                         expiresIn: int, refreshExpiresIn: int, accessExpiresAt: int, refreshExpiresAt: int)

  datatype TokenKind = Access | Refresh

  function KindName(k: TokenKind): string
  {
    match k
    case Access => "access"
    case Refresh => "refresh"
  }

  /** A 401 with `WWW-Authenticate: Bearer`. */
  function Unauthorized(detail: string): HttpError
  {
    HttpError(401, detail)
  }

  // ------------------------------------------------------------ creating

  /** The claims that token creation adds to the caller's data. */
  predicate Stamped(k: string)
  {
    k == "exp" || k == "type" || k == "iat" || k == "jti"
  }

  /** The claims signed by `create_access_token` / `create_refresh_token`: the data, then exp, type, iat and jti; an absent or zero `expiresDelta` means the default lifetime. */
  function TokenClaims(kind: TokenKind, data: Dict, expiresDelta: Option<int>, now: int, jti: string): (r: Dict)
    ensures r.Keys == data.Keys + {"exp", "type", "iat", "jti"}
    ensures r["type"] == Str(KindName(kind)) && r["iat"] == Num(now) && r["jti"] == Str(jti)
    ensures kind == Refresh ==> r["exp"] == Num(now + RefreshTokenExpireDays * 24 * 60 * 60)
    ensures kind == Access && (expiresDelta.None? || expiresDelta.value == 0) ==> r["exp"] == Num(now + AccessTokenExpireMinutes * 60)
    ensures kind == Access && expiresDelta.Some? && expiresDelta.value != 0 ==> r["exp"] == Num(now + expiresDelta.value)
    ensures forall k :: k in data && !Stamped(k) ==> r[k] == data[k]
  {
    var lifetime :=
      if kind == Refresh then RefreshTokenExpireDays * 24 * 60 * 60
      else if expiresDelta.Some? && expiresDelta.value != 0 then expiresDelta.value
      else AccessTokenExpireMinutes * 60;
    data["exp" := Num(now + lifetime)]["type" := Str(KindName(kind))]["iat" := Num(now)]["jti" := Str(jti)]
  }

  function CreateAccessToken(j: Jwt, data: Dict, expiresDelta: Option<int>, now: int, jti: string): string
  {
    j.encode(TokenClaims(Access, data, expiresDelta, now, jti))
  }

  /** A refresh token has a fixed lifetime. */
  function CreateRefreshToken(j: Jwt, data: Dict, now: int, jti: string): string
  {
    j.encode(TokenClaims(Refresh, data, None, now, jti))
  }

  // ---------------------------------------------------------- verifying

  /** `email: str | None = payload.get("email")`. */
  function ClaimString(v: Value): (r: Option<string>)
    ensures r.Some? <==> v.Str?
    ensures r.Some? ==> v == Str(r.value)
  {
    if v.Str? then Some(v.s) else None
  }

  /** The role claim: a falsy claim gives None; a role's value gives that role; any other truthy claim (whose `UserRole(...)` raises) gives USER. */
  function ParseRole(v: Value): (r: Option<UserRole>)
    ensures r.None? <==> !Truthy(v)
    ensures forall u: UserRole :: v == Str(RoleName(u)) ==> r == Some(u)
    ensures Truthy(v) && (forall u: UserRole :: v != Str(RoleName(u))) ==> r == Some(RegularUser)
  {
    if !Truthy(v) then None
    else if v == Str(RoleName(Admin)) then Some(Admin)
    else Some(RegularUser)
  }

  /** The message when the token does not decode. */
  function DecodeFailure(kind: TokenKind): string
  {
    match kind
    case Access => "Invalid or expired token"
    case Refresh => "Invalid refresh token"
  }

  /** The detail of each 401 that verification can raise. */
  predicate VerifyDetail(kind: TokenKind, d: string)
  {
    d == DecodeFailure(kind) || d == "Invalid token type" || d == "Token missing user ID" || d == "Invalid token format"
  }

  /** `verify_token` / `verify_refresh_token`: the decode, then the type, then the subject, then the optional e-mail and role. */
  function VerifyClaims(kind: TokenKind, j: Jwt, token: string): (r: Result<TokenData, HttpError>)
    ensures r.Err? ==> r.error.status == 401 && VerifyDetail(kind, r.error.detail)
    ensures r.Err? && r.error.detail == DecodeFailure(kind) <==> j.decode(token).None?
    ensures r.Ok? <==>
      && j.decode(token).Some?
      && Get(j.decode(token).value, "type") == Str(KindName(kind))
      && Get(j.decode(token).value, "sub").Str?
      && j.uuid(Get(j.decode(token).value, "sub").s).Some?
    ensures r.Ok? ==> var p := j.decode(token).value;
      && r.value.userId == j.uuid(Get(p, "sub").s)
      && r.value.email == ClaimString(Get(p, "email"))
      && r.value.role == ParseRole(Get(p, "role"))
  {
    match j.decode(token)
    case None => Err(Unauthorized(DecodeFailure(kind)))
    case Some(payload) =>
      var sub := Get(payload, "sub");
      if Get(payload, "type") != Str(KindName(kind)) then Err(Unauthorized("Invalid token type"))
      else if sub == Null then Err(Unauthorized("Token missing user ID"))
      else if !sub.Str? || j.uuid(sub.s).None? then Err(Unauthorized("Invalid token format"))
      else Ok(TokenData(j.uuid(sub.s), ClaimString(Get(payload, "email")), ParseRole(Get(payload, "role"))))
  }

  function VerifyToken(j: Jwt, token: string): Result<TokenData, HttpError>
  {
    VerifyClaims(Access, j, token)
  }

  function VerifyRefreshToken(j: Jwt, token: string): Result<TokenData, HttpError>
  {
    VerifyClaims(Refresh, j, token)
  }

  /** A verified token always carries a user id, so the later `user_id is None` checks never fire. */
  lemma VerifiedHasUserId(kind: TokenKind, j: Jwt, token: string)
    ensures VerifyClaims(kind, j, token).Ok? ==> VerifyClaims(kind, j, token).value.userId.Some?
  {
  }

  /** The claims a user's tokens carry. */
  function UserClaims(id: string, email: string, role: UserRole): (r: Dict)
    ensures r.Keys == {"sub", "email", "role"}
  {
    map["sub" := Str(id), "email" := Str(email), "role" := Str(RoleName(role))]
  }

  /** The identity a user's claims carry reads back as it was written, and a claim that is absent reads as none. */
  lemma UserClaimsReadBack(id: string, email: string, role: UserRole, d: Dict, k: string)
    ensures ClaimString(UserClaims(id, email, role)["sub"]) == Some(id)
    ensures ClaimString(Get(UserClaims(id, email, role), "email")) == Some(email)
    ensures k !in d ==> ClaimString(Get(d, k)).None?
  {
  }

  /** A token made from a user's claims verifies, as its own kind, to that user's id, e-mail and role. */
  lemma CreatedTokenVerifies(kind: TokenKind, j: Jwt, id: string, email: string, role: UserRole,
                             expiresDelta: Option<int>, now: int, jti: string)
    requires j.uuid(id) == Some(id)
    requires RoundTrips(j, TokenClaims(kind, UserClaims(id, email, role), expiresDelta, now, jti))
    ensures VerifyClaims(kind, j, j.encode(TokenClaims(kind, UserClaims(id, email, role), expiresDelta, now, jti)))
            == Ok(TokenData(Some(id), Some(email), Some(role)))
  {
    var claims := TokenClaims(kind, UserClaims(id, email, role), expiresDelta, now, jti);
    assert Get(claims, "sub") == Str(id) && Get(claims, "email") == Str(email) && Get(claims, "role") == Str(RoleName(role));
  }

  /** The refresh verifier rejects an access token as "Invalid token type". */
  lemma AccessTokenNotRefresh(j: Jwt, data: Dict, expiresDelta: Option<int>, now: int, jti: string)
    requires RoundTrips(j, TokenClaims(Access, data, expiresDelta, now, jti))
    ensures VerifyRefreshToken(j, CreateAccessToken(j, data, expiresDelta, now, jti)) == Err(Unauthorized("Invalid token type"))
  {
    assert Get(TokenClaims(Access, data, expiresDelta, now, jti), "type") == Str("access");
  }

  /** The access verifier rejects a refresh token as "Invalid token type". */
  lemma RefreshTokenNotAccess(j: Jwt, data: Dict, now: int, jti: string)
    requires RoundTrips(j, TokenClaims(Refresh, data, None, now, jti))
    ensures VerifyToken(j, CreateRefreshToken(j, data, now, jti)) == Err(Unauthorized("Invalid token type"))
  {
    assert Get(TokenClaims(Refresh, data, None, now, jti), "type") == Str("refresh");
  }

  // -------------------------------------------------------- dependencies

  /** The first stored user with that id (ids are unique). */
  function FindById(users: seq<UserRecord>, id: string): (r: Option<UserRecord>)
    ensures r.Some? ==> r.value in users && r.value.id == id
    ensures r.None? ==> forall u :: u in users ==> u.id != id
  {
    if users == [] then None
    else if users[0].id == id then Some(users[0])
    else FindById(users[1..], id)
  }

  /** `get_current_user`; `token` is the bearer credential, if the request carried one. */
  function GetCurrentUser(j: Jwt, token: Option<string>, users: seq<UserRecord>): (r: Result<UserRecord, HttpError>)
    ensures token.None? ==> r == Err(Unauthorized("Not authenticated"))
    ensures token.Some? && VerifyToken(j, token.value).Err? ==> r == Err(VerifyToken(j, token.value).error)
    ensures r.Ok? ==> r.value in users && token.Some? && Some(r.value.id) == VerifyToken(j, token.value).value.userId
    ensures token.Some? && VerifyToken(j, token.value).Ok? && FindById(users, VerifyToken(j, token.value).value.userId.value).None?
            ==> r == Err(Unauthorized("Could not validate credentials"))
  {
    if token.None? then Err(Unauthorized("Not authenticated"))
    else match VerifyToken(j, token.value)
      case Err(e) => Err(e)
      case Ok(data) =>
        if data.userId.None? then Err(Unauthorized("Could not validate credentials"))
        else match FindById(users, data.userId.value)
          case None => Err(Unauthorized("Could not validate credentials"))
          case Some(u) => Ok(u)
  }

  /** `check_admin_role`. */
  function CheckAdminRole(user: UserRecord): (r: Result<UserRecord, HttpError>)
    ensures r.Ok? <==> user.role == Admin
    ensures r.Ok? ==> r.value == user
    ensures r.Err? ==> r.error == HttpError(403, "Not enough permissions")
  {
    if user.role != Admin then Err(HttpError(403, "Not enough permissions")) else Ok(user)
  }

  /** The admin check is the stricter of the two gates: whoever passes it passes the registration gate, the gates differ only on the bootstrap e-mail, and the stand-in administrator passes both. */
  lemma AdminCheckStricterThanBootstrapGate(user: UserRecord, id: string)
    ensures CheckAdminRole(user).Ok? ==> RequireAdminOrFirstUser(user) == CheckAdminRole(user)
    ensures user.email != BootstrapEmail ==> RequireAdminOrFirstUser(user) == CheckAdminRole(user)
    ensures RequireAdminOrFirstUser(user).Ok? && CheckAdminRole(user).Err? ==> user.email == BootstrapEmail && user.role != Admin
    ensures CheckAdminRole(SystemAdmin(id)) == Ok(SystemAdmin(id)) && RequireAdminOrFirstUser(SystemAdmin(id)) == Ok(SystemAdmin(id))
  {
  }

  /** The stand-in administrator returned while the users table is empty; it has no password. */
  function SystemAdmin(id: string): UserRecord
  {
    UserRecord(id, BootstrapEmail, Some("System Admin"), "", Admin)
  }

  /** `get_current_user_or_first_admin`; `dummyId` is the fresh `uuid4()` of the stand-in. */
  function GetCurrentUserOrFirstAdmin(j: Jwt, token: Option<string>, users: seq<UserRecord>, dummyId: string)
    : (r: Result<UserRecord, HttpError>)
    ensures users == [] ==> r == Ok(SystemAdmin(dummyId))
    ensures users != [] && token.None? ==> r == Err(Unauthorized("Authorization header missing"))
    ensures users != [] && token.Some? && VerifyToken(j, token.value).Err? ==> r == Err(VerifyToken(j, token.value).error)
    ensures users != [] && r.Ok? ==> r.value in users && token.Some? && Some(r.value.id) == VerifyToken(j, token.value).value.userId
    ensures users != [] && token.Some? && VerifyToken(j, token.value).Ok? && FindById(users, VerifyToken(j, token.value).value.userId.value).None?
            ==> r == Err(Unauthorized("User not found"))
  {
    if users == [] then Ok(SystemAdmin(dummyId))
    else if token.None? then Err(Unauthorized("Authorization header missing"))
    else match VerifyToken(j, token.value)
      case Err(e) => Err(e)
      case Ok(data) =>
        if data.userId.None? then Err(Unauthorized("Token missing user ID"))
        else match FindById(users, data.userId.value)
          case None => Err(Unauthorized("User not found"))
          case Some(u) => Ok(u)
  }

  /** `require_admin_or_first_user`: the stand-in's e-mail passes, anyone else must be an administrator. */
  function RequireAdminOrFirstUser(user: UserRecord): (r: Result<UserRecord, HttpError>)
    ensures r.Ok? <==> user.email == BootstrapEmail || user.role == Admin
    ensures r.Ok? ==> r.value == user
    ensures r.Err? ==> r.error == HttpError(403, "Not enough permissions")
  {
    if user.email == BootstrapEmail then Ok(user) else CheckAdminRole(user)
  }

  /** With no users at all, registration needs no credential. */
  lemma EmptyStoreAdmitsRegistration(j: Jwt, token: Option<string>, dummyId: string)
    ensures var c := GetCurrentUserOrFirstAdmin(j, token, [], dummyId);
      c.Ok? && RequireAdminOrFirstUser(c.value) == Ok(SystemAdmin(dummyId))
  {
  }

  /** Once a user exists, passing the registration dependency takes a valid access token of a stored user who is an administrator or has the bootstrap e-mail. */
  lemma RegistrationNeedsAdminToken(j: Jwt, token: Option<string>, users: seq<UserRecord>, dummyId: string)
    requires users != []
    ensures var c := GetCurrentUserOrFirstAdmin(j, token, users, dummyId);
      c.Ok? && RequireAdminOrFirstUser(c.value).Ok? ==>
        && token.Some? && VerifyToken(j, token.value).Ok?
        && c.value in users
        && (c.value.role == Admin || c.value.email == BootstrapEmail)
  {
  }
}
