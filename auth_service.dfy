// The authentication service: role rules for registration, password login,
// token issue and refresh, and role updates, over the users table.
module AuthService {
  import opened Wrappers
  import opened Json
  import opened Models
  import opened AuthUtils

  /** `UserCreate`: the registration form. */
  datatype UserCreate = UserCreate(email: string, name: Option<string>, password: string, role: Option<UserRole>)

  /** `UserRead`: a user without the password hash. */
  datatype UserRead = UserRead(id: string, email: string, name: Option<string>, role: UserRole)

  function ToRead(u: UserRecord): (r: UserRead)
    ensures r.id == u.id && r.email == u.email && r.name == u.name && r.role == u.role
  {
    UserRead(u.id, u.email, u.name, u.role)
  }

  /** The public view loses exactly the password hash: two users look the same exactly when they differ in nothing else. */
  lemma ToReadHidesOnlyHash(u: UserRecord, v: UserRecord)
    ensures ToRead(u) == ToRead(v) <==> u.(passwordHash := v.passwordHash) == v
  {
  }

  /** What `refresh_user_tokens` can raise: an HTTP error from verification, or a ValueError. */
  datatype AuthFailure = HttpFailure(error: HttpError) | ValueFailure(message: string)

  const FirstUserHasCreator := "First user registration must not have a creator"
  const CreatorRequired := "Creator role required for non-first user registration"
  const AdminCreatesAdmin := "Only administrators can create admin users"
  const AdminUpdatesRoles := "Only administrators can update user roles"

  /** The role rules of `create_user`, given the number of users already stored. */
  function NewUserRole(count: nat, requested: Option<UserRole>, creator: Option<UserRole>): (r: Result<UserRole, string>)
    ensures count == 0 ==> r == (if creator.Some? then Err(FirstUserHasCreator) else Ok(Admin))
    ensures count > 0 && creator.None? ==> r == Err(CreatorRequired)
    ensures count > 0 && creator.Some? && requested == Some(Admin) && creator != Some(Admin) ==> r == Err(AdminCreatesAdmin)
    ensures count > 0 && creator.Some? && !(requested == Some(Admin) && creator != Some(Admin)) ==> r == Ok(requested.GetOr(RegularUser))
  {
    if count == 0 then
      if creator.Some? then Err(FirstUserHasCreator) else Ok(Admin)
    else if creator.None? then Err(CreatorRequired)
    else if requested == Some(Admin) && creator != Some(Admin) then Err(AdminCreatesAdmin)
    else Ok(requested.GetOr(RegularUser))
  }

  /** Only an administrator's registration can produce an administrator, apart from the very first user. */
  lemma OnlyAdminsMakeAdmins(count: nat, requested: Option<UserRole>, creator: Option<UserRole>)
    requires NewUserRole(count, requested, creator) == Ok(Admin)
    ensures count == 0 || creator == Some(Admin)
  {
  }

  /** A user can be created exactly as the first one without a creator, or later with a creator who is an administrator whenever an administrator is asked for; the role is then Admin for the first user and the one asked for, USER by default, afterwards. */
  lemma RegistrationAllowed(count: nat, requested: Option<UserRole>, creator: Option<UserRole>)
    ensures NewUserRole(count, requested, creator).Ok? <==>
      (count == 0 && creator.None?) || (count > 0 && creator.Some? && (requested == Some(Admin) ==> creator == Some(Admin)))
    ensures NewUserRole(count, requested, creator).Ok? ==>
      NewUserRole(count, requested, creator).value == (if count == 0 then Admin else requested.GetOr(RegularUser))
  {
  }

  /** The first user becomes an administrator whatever role was asked for, and later users default to USER. */
  lemma RoleDefaults(requested: Option<UserRole>, count: nat, creator: UserRole)
    ensures NewUserRole(0, requested, None) == Ok(Admin)
    ensures count > 0 ==> NewUserRole(count, None, Some(creator)) == Ok(RegularUser)
  {
  }

  /** The first user at index `i` with that e-mail, if any. */
  function IndexOfEmail(users: seq<UserRecord>, email: string): (r: Option<nat>)
    ensures r.Some? ==> r.value < |users| && users[r.value].email == email
    ensures r.Some? ==> forall k :: 0 <= k < r.value ==> users[k].email != email
    ensures r.None? ==> forall u :: u in users ==> u.email != email
  {
    if users == [] then None
    else if users[0].email == email then Some(0)
    else match IndexOfEmail(users[1..], email)
      case None => None
      case Some(k) => Some(k + 1)
  }

  /** The position of the user with that id, if any. */
  function IndexOfId(users: seq<UserRecord>, id: string): (r: Option<nat>)
    ensures r.Some? ==> r.value < |users| && users[r.value].id == id
    ensures r.None? ==> forall u :: u in users ==> u.id != id
  {
    if users == [] then None
    else if users[0].id == id then Some(0)
    else match IndexOfId(users[1..], id)
      case None => None
      case Some(k) => Some(k + 1)
  }

  /** The users table. */
  class UserStore {
    var users: seq<UserRecord>

    constructor (initial: seq<UserRecord>)
      ensures users == initial
    {
      users := initial;
    }

    /** `create_user`: the role rules, then the new row with the hashed password; `hash` is the password hasher and `newId` the id the database assigns. */
    method CreateUser(data: UserCreate, creatorRole: Option<UserRole>, newId: string, hash: string -> string)
      returns (r: Result<UserRecord, string>)
      modifies this
      ensures var role := NewUserRole(|old(users)|, data.role, creatorRole);
        && (role.Err? ==> r == Err(role.error) && users == old(users))
        && (role.Ok? ==> r == Ok(UserRecord(newId, data.email, data.name, hash(data.password), role.value))
                         && users == old(users) + [r.value])
    {
      var role := NewUserRole(|users|, data.role, creatorRole);
      if role.Err? {
        return Err(role.error);
      }
      var user := UserRecord(newId, data.email, data.name, hash(data.password), role.value);
      users := users + [user];
      r := Ok(user);
    }

    /** `authenticate_user`: the user with that e-mail, if the password verifies against its hash. */
    function AuthenticateUser(email: string, password: string, verify: (string, string) -> bool): (r: Option<UserRecord>)
      reads this
      ensures r.Some? <==> exists i :: 0 <= i < |users| && users[i].email == email && verify(password, users[i].passwordHash)
                                        && forall k :: 0 <= k < i ==> users[k].email != email
      ensures r.Some? ==> r.value in users && r.value.email == email && verify(password, r.value.passwordHash)
    {
      match IndexOfEmail(users, email)
      case None => None
      case Some(i) => if verify(password, users[i].passwordHash) then Some(users[i]) else None
    }

    /** `get_user_by_id`. */
    function GetUserById(id: string): (r: Option<UserRecord>)
      reads this
      ensures r.Some? ==> r.value in users && r.value.id == id
      ensures r.None? ==> forall u :: u in users ==> u.id != id
    {
      FindById(users, id)
    }

    /** `get_all_users`: every row without its password hash. */
    function GetAllUsers(): (r: seq<UserRead>)
      reads this
      ensures |r| == |users|
      ensures forall i :: 0 <= i < |r| ==> r[i] == ToRead(users[i])
    {
      var us := users;
      seq(|us|, i requires 0 <= i < |us| => ToRead(us[i]))
    }

    /** `refresh_user_tokens`: a valid refresh token of a stored user gives a fresh pair of tokens for that user. */
    function RefreshUserTokens(j: Jwt, refreshToken: string, now: int, accessJti: string, refreshJti: string)
      : (r: Result<Token, AuthFailure>)
      reads this
      ensures VerifyRefreshToken(j, refreshToken).Err? ==> r == Err(HttpFailure(VerifyRefreshToken(j, refreshToken).error))
      ensures r.Ok? ==> exists u :: u in users && Some(u.id) == VerifyRefreshToken(j, refreshToken).value.userId
                                   && r.value == CreateUserTokens(j, u, now, accessJti, refreshJti)
      ensures VerifyRefreshToken(j, refreshToken).Ok? && FindById(users, VerifyRefreshToken(j, refreshToken).value.userId.value).None?
              ==> r == Err(ValueFailure("User not found"))
    {
      match VerifyRefreshToken(j, refreshToken)
      case Err(e) => Err(HttpFailure(e))
      case Ok(data) =>
        if data.userId.None? then Err(ValueFailure("Invalid refresh token: missing user ID"))
        else match FindById(users, data.userId.value)
          case None => Err(ValueFailure("User not found"))
          case Some(u) => Ok(CreateUserTokens(j, u, now, accessJti, refreshJti))
    }

    /** `update_user_role`: a non-administrator is refused before any lookup, an unknown id gives None, and otherwise only that user's role changes. */
    method UpdateUserRole(userId: string, newRole: UserRole, updaterRole: UserRole)
      returns (r: Result<Option<UserRecord>, string>)
      modifies this
      ensures updaterRole != Admin ==> r == Err(AdminUpdatesRoles) && users == old(users)
      ensures updaterRole == Admin && IndexOfId(old(users), userId).None? ==> r == Ok(None) && users == old(users)
      ensures updaterRole == Admin && IndexOfId(old(users), userId).Some? ==>
        var i := IndexOfId(old(users), userId).value;
        && users == old(users)[i := old(users)[i].(role := newRole)]
        && r == Ok(Some(users[i]))
    {
      if updaterRole != Admin {
        return Err(AdminUpdatesRoles);
      }
      var found := IndexOfId(users, userId);
      if found.None? {
        return Ok(None);
      }
      var i := found.value;
      users := users[i := users[i].(role := newRole)];
      r := Ok(Some(users[i]));
    }
  }

  /** `create_user_tokens`: both tokens carry the user's id, e-mail and role; the access token lives 30 minutes and the refresh token 7 days. */
  function CreateUserTokens(j: Jwt, user: UserRecord, now: int, accessJti: string, refreshJti: string): (r: Token)
    ensures r.expiresIn == 1800 && r.refreshExpiresIn == 604800
    ensures r.accessExpiresAt == now + r.expiresIn && r.refreshExpiresAt == now + r.refreshExpiresIn
    ensures r.tokenType == "bearer"
    ensures r.accessToken == j.encode(TokenClaims(Access, UserClaims(user.id, user.email, user.role), None, now, accessJti))
    ensures r.refreshToken == j.encode(TokenClaims(Refresh, UserClaims(user.id, user.email, user.role), None, now, refreshJti))
  {
    var data := UserClaims(user.id, user.email, user.role);
    Token(CreateAccessToken(j, data, None, now, accessJti), CreateRefreshToken(j, data, now, refreshJti), "bearer",
          AccessTokenExpireMinutes * 60, RefreshTokenExpireDays * 24 * 60 * 60,
          now + AccessTokenExpireMinutes * 60, now + RefreshTokenExpireDays * 24 * 60 * 60)
  }

  /** The refresh token of a pair verifies back to the user it was issued for, and so refreshing it issues a pair for that same user. */
  lemma RefreshRoundTrip(store: UserStore, j: Jwt, user: UserRecord, now: int, aJti: string, rJti: string,
                         later: int, aJti2: string, rJti2: string)
    requires user in store.users && FindById(store.users, user.id) == Some(user)
    requires j.uuid(user.id) == Some(user.id)
    requires RoundTrips(j, TokenClaims(Refresh, UserClaims(user.id, user.email, user.role), None, now, rJti))
    ensures store.RefreshUserTokens(j, CreateUserTokens(j, user, now, aJti, rJti).refreshToken, later, aJti2, rJti2)
            == Ok(CreateUserTokens(j, user, later, aJti2, rJti2))
  {
    CreatedTokenVerifies(Refresh, j, user.id, user.email, user.role, None, now, rJti);
  }

  /** An access token cannot be used to refresh. */
  lemma AccessTokenCannotRefresh(store: UserStore, j: Jwt, user: UserRecord, now: int, aJti: string, rJti: string,
                                 later: int, aJti2: string, rJti2: string)
    requires RoundTrips(j, TokenClaims(Access, UserClaims(user.id, user.email, user.role), None, now, aJti))
    ensures store.RefreshUserTokens(j, CreateUserTokens(j, user, now, aJti, rJti).accessToken, later, aJti2, rJti2)
            == Err(HttpFailure(Unauthorized("Invalid token type")))
  {
    AccessTokenNotRefresh(j, UserClaims(user.id, user.email, user.role), None, now, aJti);
  }
}
