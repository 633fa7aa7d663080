/** Credential checking and the cookie session: `login`, `register`,
    `createUserSession`, `getUser` and `logout`, with the startup check for the
    signing secret. */
module SessionServer {
  import opened Wrappers
  import opened Store
  import opened Bcrypt
  import opened Http

  /** The startup check: the process refuses to start when the secret is
      missing or empty (`!sessionSecret`). */
  function SessionSecret(env: Option<string>): (r: Result<string, string>)
    ensures r.Ok? <==> env.Some? && env.value != ""
    ensures r.Ok? ==> r.value == env.value
    ensures r.Err? ==> r.error == "No session secret"
  {
    if env.None? || env.value == "" then Err("No session secret") else Ok(env.value)
  }

  /** `login`: the stored user when the username exists and the password
      verifies against its hash; `None` for an unknown user and for a wrong
      password alike. */
  function Login(users: Users, h: Hasher, username: string, password: string): (r: Option<User>)
    requires UsersValid(users)
    ensures r.Some? <==> exists id :: id in users && users[id].username == username
                                      && h.compare(password, users[id].passwordHash)
    ensures r.Some? ==> r.value.id in users && users[r.value.id] == r.value && r.value.username == username
    ensures FindUserByUsername(users, username).None? ==> r.None?
  {
    match FindUserByUsername(users, username)
    case None => None
    case Some(user) => if h.compare(password, user.passwordHash) then Some(user) else None
  }

  /** `register`: `None` when the username is taken and nothing changes;
      otherwise one new user holding the username and the digest of the
      password, under the id the store generates. */
  method Register(db: Db, h: Hasher, username: string, password: string, salt: Salt, newId: string)
    returns (r: Option<User>)
    requires db.Valid() && FreshUserId(db.users, newId)
    modifies db
    ensures db.Valid() && db.posts == old(db.posts) && db.profiles == old(db.profiles)
    ensures old(FindUserByUsername(db.users, username)).Some? ==> r.None? && db.users == old(db.users)
    ensures old(FindUserByUsername(db.users, username)).None? ==>
              r == Some(User(newId, username, h.hash(password, salt)))
              && db.users == old(db.users)[newId := r.value]
    ensures Sound(h) && r.Some? ==> Login(db.users, h, username, password) == r
  {
    var existing := FindUserByUsername(db.users, username);
    if existing.Some? {
      return None;
    }
    var passwordHash := h.hash(password, salt);
    var user := db.CreateUser(newId, username, passwordHash);
    if Sound(h) {
      RegisterThenLogin(old(db.users), h, username, password, salt, newId);
    }
    r := Some(user);
  }

  /** Round trip: once `register(username, password)` has added its user,
      `login(username, password)` returns exactly that user. */
  lemma RegisterThenLogin(users: Users, h: Hasher, username: string, password: string,
                          salt: Salt, newId: string)
    requires Sound(h) && UsersValid(users) && FreshUserId(users, newId)
    requires FindUserByUsername(users, username).None?
    ensures var u := User(newId, username, h.hash(password, salt));
            UsersValid(users[newId := u]) && Login(users[newId := u], h, username, password) == Some(u)
  {
    var u := User(newId, username, h.hash(password, salt));
    var users' := users[newId := u];
    assert UniqueUsernames(users') by {
      forall a, b | a in users' && b in users' && users'[a].username == users'[b].username
        ensures a == b
      {
        if a != newId && b != newId {
          assert users'[a] == users[a] && users'[b] == users[b];
        }
      }
    }
    assert h.compare(password, u.passwordHash);
    assert users'[newId].username == username;
  }

  /** The claims a session created for `userId` carries: the single `userId`
      claim. */
  function UserClaims(userId: string): (claims: Claims)
    ensures claims.Keys == {"userId"} && claims["userId"] == Str(userId)
  {
    map["userId" := Str(userId)]
  }

  /** The session data `storage.getSession(cookieHeader)` decodes: that of the
      cookie, or nothing when there is none (or it fails to verify). */
  function Decoded(cookie: Option<Claims>): (claims: Claims)
    ensures cookie.Some? ==> claims == cookie.value
    ensures cookie.None? ==> claims == map[]
  {
    if cookie.Some? then cookie.value else map[]
  }

  /** A session object of the cookie session storage. */
  class Session {
    var data: Claims

    /** `storage.getSession(cookieHeader)`. */
    constructor (cookie: Option<Claims>)
      ensures data == Decoded(cookie)
    {
      data := Decoded(cookie);
    }

    /** `session.set(key, value)`. */
    method Set(key: string, value: Claim)
      modifies this
      ensures data == old(data)[key := value]
    {
      data := data[key := value];
    }

    /** `storage.commitSession(session)`. */
    function Commit(): SetCookie
      reads this
    {
      SetCookie.Commit(data)
    }
  }

  /** `createUserSession(userId, redirectTo)`: a redirect whose cookie holds a
      fresh session with the single `userId` claim. */
  method CreateUserSession(userId: string, redirectTo: string) returns (r: Response)
    ensures r == Redirect(redirectTo, Some(SetCookie.Commit(UserClaims(userId))))
  {
    var session := new Session(None);
    session.Set("userId", Str(userId));
    r := Redirect(redirectTo, Some(session.Commit()));
  }

  /** `getUser(request)`: the user named by the session's `userId` claim. No
      cookie, a missing or non-string or empty claim (`!userId`), a failing
      lookup (`lookupFails`) and an unknown id all give `None`. */
  function GetUser(users: Users, cookie: Option<Claims>, lookupFails: bool): (r: Option<User>)
    ensures r.Some? <==> cookie.Some? && "userId" in cookie.value && cookie.value["userId"].Str?
                         && cookie.value["userId"].s != "" && cookie.value["userId"].s in users
                         && !lookupFails
    ensures r.Some? ==> r.value == users[cookie.value["userId"].s]
  {
    var claims := Decoded(cookie);
    if "userId" !in claims then None
    else match claims["userId"]
      case Str(userId) =>
        if userId == "" then None
        else if lookupFails then None
        else FindUserById(users, userId)
      case _ => None
  }

  /** `logout(request)`: a redirect to `/auth/logout` that destroys the
      session cookie, whatever the request carried. */
  method Logout(cookie: Option<Claims>) returns (r: Response)
    ensures r == Redirect("/auth/logout", Some(Destroy))
  {
    r := Redirect("/auth/logout", Some(Destroy));
  }

  /** Round trip: the cookie of `createUserSession(id, …)` resolves back to the
      user with that id, when the store has one. */
  lemma SessionRoundTrip(users: Users, userId: string)
    requires WellKeyed(users) && userId in users
    ensures GetUser(users, Received(SetCookie.Commit(UserClaims(userId))), false) == Some(users[userId])
  {
  }

  /** After `logout` the browser holds no cookie, and `getUser` finds no one. */
  lemma LogoutEndsSession(users: Users, lookupFails: bool)
    ensures GetUser(users, Received(Destroy), lookupFails).None?
  {
  }
}
