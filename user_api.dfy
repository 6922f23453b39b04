/** The user routes of the HTTP API (app/api/user.py): password hashing, the
    access-token claims, `authenticate_user`, registration and login. bcrypt
    and JWT signing are foreign calls and appear as function parameters; the
    environment settings are a value; time is in whole minutes. */
module UserApi {
  import opened Wrappers
  import opened Http
  import opened UserSchemas

  /** A row of the users table: the hash, never the plaintext. */
  datatype UserRow = UserRow(id: int, username: string, hashedPassword: string)

  /** bcrypt as `passlib` exposes it: `hash` and `verify`. */
  datatype Crypto = Crypto(hash: string -> string, verify: (string, string) -> bool)

  /** `verify` accepts a password against its own hash. */
  predicate HashSound(crypto: Crypto, password: string)
  {
    crypto.verify(password, crypto.hash(password))
  }

  /** The three values read from the environment at import time. */
  datatype Settings = Settings(secretKey: string, algorithm: string, accessTokenExpireMinutes: int)

  /** A JWT claim value: a number, a string, or an instant (minutes). */
  datatype Claim = Num(n: int) | Text(s: string) | Instant(minutes: int)

  type Claims = map<string, Claim>

  /** `jwt.encode(claims, key, algorithm=...)`. */
  type Encoder = (Claims, string, string) -> string

  /** The body returned by `/login`. */
  datatype TokenResponse = TokenResponse(accessToken: string)

  /** What `authenticate_user` yields: the user, `False`, or the 500 it
      raises when the lookup itself fails. */
  datatype AuthOutcome = Authenticated(user: UserRow) | Rejected | LookupFailed

  const RegisterErrorDetail := "Ошибка создания пользователя"
  const ServerErrorDetail := "Ошибка сервера"
  const BadCredentialsDetail := "Неверное имя пользователя или пароль"

  /** Minutes of validity: a truthy delta (present and non-zero) is used,
      otherwise the configured default. */
  function ExpiryMinutes(expiresDelta: Option<int>, settings: Settings): (m: int)
    ensures expiresDelta.Some? && expiresDelta.value != 0 ==> m == expiresDelta.value
    ensures expiresDelta == None || expiresDelta == Some(0) ==> m == settings.accessTokenExpireMinutes
  {
    if expiresDelta.Some? && expiresDelta.value != 0 then expiresDelta.value
    else settings.accessTokenExpireMinutes
  }

  /** The claims `create_access_token` encodes: a copy of the caller's claims
      with `exp` added or overwritten, and nothing else changed. */
  function TokenClaims(data: Claims, expiresDelta: Option<int>, now: int, settings: Settings): (claims: Claims)
    ensures claims.Keys == data.Keys + {"exp"}
    ensures forall k :: k in data && k != "exp" ==> claims[k] == data[k]
    ensures expiresDelta.Some? && expiresDelta.value != 0 ==> claims["exp"] == Instant(now + expiresDelta.value)
    ensures expiresDelta == None || expiresDelta == Some(0) ==>
      claims["exp"] == Instant(now + settings.accessTokenExpireMinutes)
  {
    data["exp" := Instant(now + ExpiryMinutes(expiresDelta, settings))]
  }

  /** `create_access_token`: the claims of `TokenClaims`, signed with the
      configured key and algorithm. */
  function CreateAccessToken(data: Claims, expiresDelta: Option<int>, now: int, settings: Settings, encode: Encoder): string
  {
    encode(TokenClaims(data, expiresDelta, now, settings), settings.secretKey, settings.algorithm)
  }

  /** An `exp` the caller already put in its claims never reaches the token. */
  lemma CallerExpIgnored(data: Claims, exp: Claim, expiresDelta: Option<int>, now: int, settings: Settings, encode: Encoder)
    ensures CreateAccessToken(data["exp" := exp], expiresDelta, now, settings, encode)
         == CreateAccessToken(data, expiresDelta, now, settings, encode)
  {
    assert TokenClaims(data["exp" := exp], expiresDelta, now, settings) == TokenClaims(data, expiresDelta, now, settings);
  }

  /** The ids in a set below a bound. */
  function Below(ids: set<int>, bound: int): set<int>
  {
    set k | k in ids && k < bound
  }

  /** A set of ids holding `w` has a least element. */
  lemma {:induction false} LeastExists(ids: set<int>, w: int)
    requires w in ids
    ensures exists m :: m in ids && forall j :: j in ids ==> m <= j
    decreases Below(ids, w)
  {
    if !forall j :: j in ids ==> w <= j {
      var j :| j in ids && j < w;
      assert Below(ids, j) <= Below(ids, w);
      assert j in Below(ids, w) && j !in Below(ids, j);
      LeastExists(ids, j);
    }
  }

  /** The first row with that username. The query has no ORDER BY, so which
      duplicate comes first is up to the database; the model takes the
      lowest id. */
  function FindByUsername(users: map<int, UserRow>, username: string): (r: Option<UserRow>)
    ensures r.None? <==> forall id :: id in users ==> users[id].username != username
    ensures r.Some? ==> r.value.username == username
    ensures r.Some? ==>
      exists first :: first in users && users[first] == r.value
        && forall id :: id in users && users[id].username == username ==> first <= id
  {
    if exists id :: id in users && users[id].username == username then
      var w :| w in users && users[w].username == username;
      var ids := set id | id in users && users[id].username == username;
      LeastExists(ids, w);
      var first :| first in ids && forall j :: j in ids ==> first <= j;
      assert forall id :: id in users && users[id].username == username ==> id in ids;
      Some(users[first])
    else
      None
  }

  /** `authenticate_user`. */
  function AuthenticateUser(users: map<int, UserRow>, username: string, password: string, crypto: Crypto, lookupFails: bool): (r: AuthOutcome)
    ensures lookupFails <==> r == LookupFailed
    ensures !lookupFails && (forall id :: id in users ==> users[id].username != username) ==> r == Rejected
    ensures r.Authenticated? ==> FindByUsername(users, username) == Some(r.user)
    ensures r.Authenticated? ==>
      && r.user.username == username
      && (exists id :: id in users && users[id] == r.user)
      && crypto.verify(password, r.user.hashedPassword)
    ensures !lookupFails ==>
      (r == Rejected <==> FindByUsername(users, username).None?
                          || !crypto.verify(password, FindByUsername(users, username).value.hashedPassword))
  {
    if lookupFails then LookupFailed
    else
      match FindByUsername(users, username)
      case None => Rejected
      case Some(user) => if crypto.verify(password, user.hashedPassword) then Authenticated(user) else Rejected
  }

  /** `login_for_access_token`: 500 when the lookup fails, one and the same
      401 for an unknown username and for a wrong password, otherwise a
      token whose claims are the user id and `exp = now + the configured
      minutes`. */
  function LoginForAccessToken(
    users: map<int, UserRow>, form: UserLogin, crypto: Crypto, settings: Settings,
    encode: Encoder, now: int, lookupFails: bool): (r: Reply<TokenResponse>)
    ensures lookupFails ==> r == HttpError(500, ServerErrorDetail)
    ensures !lookupFails && (forall id :: id in users ==> users[id].username != form.username) ==>
      r == HttpError(401, BadCredentialsDetail)
    ensures !lookupFails && FindByUsername(users, form.username).Some?
            && !crypto.verify(form.password, FindByUsername(users, form.username).value.hashedPassword) ==>
      r == HttpError(401, BadCredentialsDetail)
    ensures r.Ok? ==>
      exists id :: id in users && users[id].username == form.username
        && crypto.verify(form.password, users[id].hashedPassword)
        && r.body.accessToken == encode(map["user_id" := Num(users[id].id), "exp" := Instant(now + settings.accessTokenExpireMinutes)],
                                        settings.secretKey, settings.algorithm)
    ensures !lookupFails && FindByUsername(users, form.username).Some?
            && crypto.verify(form.password, FindByUsername(users, form.username).value.hashedPassword) ==>
      r == Ok(TokenResponse(encode(map["user_id" := Num(FindByUsername(users, form.username).value.id),
                                       "exp" := Instant(now + settings.accessTokenExpireMinutes)],
                                   settings.secretKey, settings.algorithm)))
  {
    match AuthenticateUser(users, form.username, form.password, crypto, lookupFails)
    case LookupFailed => HttpError(500, ServerErrorDetail)
    case Rejected => HttpError(401, BadCredentialsDetail)
    case Authenticated(user) =>
      var claims := map["user_id" := Num(user.id)];
      assert TokenClaims(claims, Some(settings.accessTokenExpireMinutes), now, settings)
          == map["user_id" := Num(user.id), "exp" := Instant(now + settings.accessTokenExpireMinutes)];
      Ok(TokenResponse(CreateAccessToken(claims, Some(settings.accessTokenExpireMinutes), now, settings, encode)))
  }

  /** The row `create_user` inserts: the username and the hash of the
      password. */
  function RegisteredRow(id: int, user: UserCreate, crypto: Crypto): UserRow
  {
    UserRow(id, user.username, crypto.hash(user.password))
  }

  /** After registering a username nobody else holds, logging in with the
      same password yields the token for the new id. */
  lemma RegisterThenLogin(
    users: map<int, UserRow>, id: int, user: UserCreate, crypto: Crypto,
    settings: Settings, encode: Encoder, now: int)
    requires id !in users
    requires forall k :: k in users ==> users[k].username != user.username
    requires HashSound(crypto, user.password)
    ensures LoginForAccessToken(users[id := RegisteredRow(id, user, crypto)], user, crypto, settings, encode, now, false)
         == Ok(TokenResponse(encode(map["user_id" := Num(id), "exp" := Instant(now + settings.accessTokenExpireMinutes)],
                                    settings.secretKey, settings.algorithm)))
  {
    var users' := users[id := RegisteredRow(id, user, crypto)];
    assert id in users' && users'[id].username == user.username;
    var found := FindByUsername(users', user.username);
    assert found.value == RegisteredRow(id, user, crypto);
  }

  /** The users table. */
  class UserTable {
    var users: map<int, UserRow>
    var nextId: int

    ghost predicate Valid()
      reads this
    {
      && 1 <= nextId
      && forall id :: id in users ==> 1 <= id < nextId && users[id].id == id
    }

    constructor ()
      ensures Valid() && users == map[] && nextId == 1
    {
      users := map[];
      nextId := 1;
    }

    /** `create_user`: inserts the username and the hash of the password
        under a fresh id and echoes id and username. Any failure, a
        uniqueness violation at commit included, answers 500. */
    method CreateUser(user: UserCreate, crypto: Crypto, fault: StoreFault) returns (r: Reply<UserResponse>)
      requires Valid()
      modifies this
      ensures Valid()
      ensures old(nextId) !in old(users)
      ensures fault == FailsBeforeCommit ==> users == old(users) && nextId == old(nextId)
      ensures fault != FailsBeforeCommit ==>
        users == old(users)[old(nextId) := RegisteredRow(old(nextId), user, crypto)] && nextId == old(nextId) + 1
      ensures fault == NoFault ==> r == Ok(UserResponse(old(nextId), user.username))
      ensures fault != NoFault ==> r == HttpError(500, RegisterErrorDetail)
    {
      if fault == FailsBeforeCommit {
        return HttpError(500, RegisterErrorDetail);
      }
      var id := nextId;
      users := users[id := RegisteredRow(id, user, crypto)];
      nextId := nextId + 1;
      if fault == FailsAfterCommit {
        return HttpError(500, RegisterErrorDetail);
      }
      r := Ok(UserResponse(id, user.username));
    }
  }
}
