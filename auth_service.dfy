/**
 * `AuthService`: registration, login and token resolution over the user table.
 *
 * Password hashing and JWT encoding are foreign code; they are parameters here
 * (`hash`, `verify`, `encode`, `decode`), and the clock is the parameter `now`
 * (seconds).
 */
module Auth {
  import opened Wrappers

  /** `ACCESS_TOKEN_EXPIRE_MINUTES` of the settings. */
  const AccessTokenExpireMinutes: int := 60

  datatype User = User(
    id: int,
    email: string,
    username: string,
    fullName: Option<string>,
    hashedPassword: string,
    isActive: bool)

  /** The registration form (`UserCreate`). */
  datatype UserCreate = UserCreate(email: string, username: string, fullName: Option<string>, password: string)

  /** An `HTTPException`: status code and detail message. */
  datatype HttpError = HttpError(status: int, detail: string)

  datatype Result<T> = Ok(value: T) | Err(error: HttpError)

  /** The JWT payload: `sub`, `user_id` and the expiry `exp`; a decoded payload may lack
      either of the first two. */
  datatype Claims = Claims(sub: Option<string>, userId: Option<int>, exp: int)

  predicate UniqueUsernames(users: seq<User>)
  {
    forall i, j :: 0 <= i < j < |users| ==> users[i].username != users[j].username
  }

  predicate UniqueEmails(users: seq<User>)
  {
    forall i, j :: 0 <= i < j < |users| ==> users[i].email != users[j].email
  }

  /** `query(User).filter(User.username == username).first()`; a missing name matches nobody. */
  function FindByUsername(users: seq<User>, username: Option<string>): (r: Option<User>)
    ensures r.None? <==> forall i :: 0 <= i < |users| ==> Some(users[i].username) != username
    ensures r.Some? ==> exists i :: 0 <= i < |users| && users[i] == r.value
                          && Some(r.value.username) == username
                          && forall j :: 0 <= j < i ==> Some(users[j].username) != username
  {
    if users == [] then None
    else if Some(users[0].username) == username then Some(users[0])
    else
      var r := FindByUsername(users[1..], username);
      assert forall i :: 1 <= i < |users| ==> users[i] == users[1..][i - 1];
      if r.Some? then
        ghost var k :| 0 <= k < |users[1..]| && users[1..][k] == r.value
                       && forall j :: 0 <= j < k ==> Some(users[1..][j].username) != username;
        assert users[k + 1] == r.value;
        r
      else r
  }

  /** With unique names, looking a member's name up finds that member. */
  lemma FindMember(users: seq<User>, u: User)
    requires UniqueUsernames(users) && u in users
    ensures FindByUsername(users, Some(u.username)) == Some(u)
  {
    var m :| 0 <= m < |users| && users[m] == u;
    var r := FindByUsername(users, Some(u.username));
    var k :| 0 <= k < |users| && users[k] == r.value && Some(r.value.username) == Some(u.username)
             && forall j :: 0 <= j < k ==> Some(users[j].username) != Some(u.username);
    if k < m {
      assert users[k].username == users[m].username;
    } else if m < k {
      assert Some(users[m].username) == Some(u.username);
    }
  }

  /** Some stored user has this email or this username. */
  predicate Registered(users: seq<User>, email: string, username: string)
  {
    exists i :: 0 <= i < |users| && (users[i].email == email || users[i].username == username)
  }

  /** The user table: the rows of `users`, and the id the next insert receives. */
  class UserTable {
    var users: seq<User>
    var nextId: int

    /** The table's constraints: unique emails and usernames, ids unique and below `nextId`. */
    ghost predicate Valid()
      reads this
    {
      UniqueUsernames(users) && UniqueEmails(users)
      && (forall i :: 0 <= i < |users| ==> users[i].id < nextId)
      && (forall i, j :: 0 <= i < j < |users| ==> users[i].id != users[j].id)
    }

    constructor ()
      ensures users == [] && Valid()
    {
      users := [];
      nextId := 1;
    }

    /** `create_user`: refuse (400) when the email or the username is taken, otherwise
        insert one active user that stores the hash of the password, never the password. */
    method CreateUser(data: UserCreate, hash: string -> string) returns (r: Result<User>)
      modifies this
      ensures Registered(old(users), data.email, data.username) ==>
                r == Err(HttpError(400, "Email or username already registered")) && users == old(users)
      ensures !Registered(old(users), data.email, data.username) ==>
                r.Ok? && users == old(users) + [r.value]
                && r.value == User(old(nextId), data.email, data.username, data.fullName,
                                   hash(data.password), true)
      ensures old(Valid()) ==> Valid()
    {
      var taken := exists i :: 0 <= i < |users| && (users[i].email == data.email || users[i].username == data.username);
      if taken {
        return Err(HttpError(400, "Email or username already registered"));
      }
      var hashedPassword := hash(data.password);
      var user := User(nextId, data.email, data.username, data.fullName, hashedPassword, true);
      users := users + [user];
      nextId := nextId + 1;
      r := Ok(user);
    }
  }

  /** `authenticate_user`: 401 for an unknown name or a wrong password, checked before
      403 for an inactive account. */
  function Authenticate(users: seq<User>, username: string, password: string,
                        verify: (string, string) -> bool): (r: Result<User>)
    ensures r.Ok? <==> (var f := FindByUsername(users, Some(username));
                        f.Some? && verify(password, f.value.hashedPassword) && f.value.isActive)
    ensures r.Ok? ==> r.value in users && r.value.username == username
    ensures r.Err? && r.error.status == 403 ==>
              exists u :: u in users && u.username == username && verify(password, u.hashedPassword) && !u.isActive
    ensures var f := FindByUsername(users, Some(username));
            f.None? || !verify(password, f.value.hashedPassword) ==>
              r == Err(HttpError(401, "Incorrect username or password"))
    ensures var f := FindByUsername(users, Some(username));
            f.Some? && verify(password, f.value.hashedPassword) && !f.value.isActive ==>
              r == Err(HttpError(403, "User account is inactive"))
    ensures r.Err? ==> r.error.status == 401 || r.error.status == 403
  {
    match FindByUsername(users, Some(username))
    case None => Err(HttpError(401, "Incorrect username or password"))
    case Some(user) =>
      if !verify(password, user.hashedPassword) then Err(HttpError(401, "Incorrect username or password"))
      else if !user.isActive then Err(HttpError(403, "User account is inactive"))
      else Ok(user)
  }

  /** `create_token_for_user`: a token whose payload names the user and expires
      `AccessTokenExpireMinutes` after `now`. */
  function CreateTokenForUser(user: User, now: int, encode: Claims -> string): string
  {
    encode(Claims(Some(user.username), Some(user.id), now + AccessTokenExpireMinutes * 60))
  }

  /** The token carries the user's name and id and an expiry `AccessTokenExpireMinutes`
      after issue; it decodes to exactly that payload while it is valid. */
  lemma TokenCarriesUser(user: User, issuedAt: int, now: int,
                         encode: Claims -> string, decode: (string, int) -> Option<Claims>)
    requires DecodeInvertsEncode(encode, decode)
    requires now < issuedAt + AccessTokenExpireMinutes * 60
    ensures decode(CreateTokenForUser(user, issuedAt, encode), now)
            == Some(Claims(Some(user.username), Some(user.id), issuedAt + 3600))
  {
  }

  /** `get_current_user`: 401 when the token does not decode, 401 when its `sub` names no user. */
  function GetCurrentUser(users: seq<User>, token: string, now: int,
                          decode: (string, int) -> Option<Claims>): (r: Result<User>)
    ensures r.Err? ==> r.error.status == 401
    ensures decode(token, now).None? ==> r == Err(HttpError(401, "Could not validate credentials"))
    ensures r.Ok? <==> decode(token, now).Some?
                       && exists i :: 0 <= i < |users| && Some(users[i].username) == decode(token, now).value.sub
    ensures r.Ok? ==> r.value in users && Some(r.value.username) == decode(token, now).value.sub
  {
    match decode(token, now)
    case None => Err(HttpError(401, "Could not validate credentials"))
    case Some(payload) =>
      match FindByUsername(users, payload.sub)
      case None => Err(HttpError(401, "User not found"))
      case Some(user) => Ok(user)
  }

  /** What the JWT library is trusted to do: a token decodes to the payload it was
      encoded from until that payload's expiry. */
  ghost predicate DecodeInvertsEncode(encode: Claims -> string, decode: (string, int) -> Option<Claims>)
  {
    forall c: Claims, now: int :: now < c.exp ==> decode(encode(c), now) == Some(c)
  }

  /** A token issued to a stored user resolves back to that user until it expires. */
  lemma TokenResolvesToUser(users: seq<User>, u: User, issuedAt: int, now: int,
                            encode: Claims -> string, decode: (string, int) -> Option<Claims>)
    requires DecodeInvertsEncode(encode, decode)
    requires UniqueUsernames(users) && u in users
    requires issuedAt <= now < issuedAt + AccessTokenExpireMinutes * 60
    ensures GetCurrentUser(users, CreateTokenForUser(u, issuedAt, encode), now, decode) == Ok(u)
  {
    FindMember(users, u);
  }
}
