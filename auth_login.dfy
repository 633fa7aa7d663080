/** The `/auth/login` route: one form that either logs in or registers,
    chosen by `loginType`, and a loader that sends logged-in users on. */
module AuthLogin {
  import opened Wrappers
  import opened Store
  import opened Bcrypt
  import opened Http
  import opened Validators
  import opened SessionServer

  /** The three text fields the action needs. */
  datatype LoginForm = LoginForm(loginType: string, username: string, password: string)

  /** The `typeof … !== "string"` checks: all three fields or nothing. */
  function ReadForm(form: Form): (r: Option<LoginForm>)
    ensures r.Some? <==> TextField(form, "loginType").Some? && TextField(form, "username").Some?
                         && TextField(form, "password").Some?
    ensures r.Some? ==> TextField(form, "loginType") == Some(r.value.loginType)
                        && TextField(form, "username") == Some(r.value.username)
                        && TextField(form, "password") == Some(r.value.password)
  {
    match (TextField(form, "loginType"), TextField(form, "username"), TextField(form, "password"))
    case (Some(loginType), Some(username), Some(password)) => Some(LoginForm(loginType, username, password))
    case _ => None
  }

  /** The fields echoed back in a 400 answer. */
  function Fields(f: LoginForm): map<string, string>
  {
    map["loginType" := f.loginType, "username" := f.username, "password" := f.password]
  }

  function Errors(f: LoginForm): map<string, string>
  {
    FieldErrors([("username", ValidateUsername(f.username)), ("password", ValidatePassword(f.password))])
  }

  /** The validation step: the form is rejected exactly when the username or
      the password is shorter than three characters. */
  lemma ErrorsWhenTooShort(f: LoginForm)
    ensures Errors(f) == map[] <==> Utf16Length(f.username) >= 3 && Utf16Length(f.password) >= 3
    ensures Utf16Length(f.username) < 3 ==> "username" in Errors(f) && Errors(f)["username"] == "Username must be at least 3 characters"
    ensures Utf16Length(f.password) < 3 ==> "password" in Errors(f) && Errors(f)["password"] == "Password must be at least 3 characters"
  {
    var checks := [("username", ValidateUsername(f.username)), ("password", ValidatePassword(f.password))];
    assert checks[0].1.None? <==> Utf16Length(f.username) >= 3;
    assert checks[1].1.None? <==> Utf16Length(f.password) >= 3;
    assert Errors(f) == FieldErrors(checks);
    assert checks[0].0 == "username" && checks[1].0 == "password";
  }

  /** The answer to a failed login: the same for an unknown username and for
      a wrong password. */
  function InvalidCredentials(f: LoginForm): Response
  {
    BadRequest(ActionData(None, map["username" := " Invalid credentials"], Fields(f)))
  }

  /** The answer when the username to register is taken. */
  function UserExists(f: LoginForm): Response
  {
    BadRequest(ActionData(None, map["username" := "User " + f.username + " already exists"], Fields(f)))
  }

  /** The route's `action`. `salt` is the salt bcrypt draws and `newId` the
      id the store would give a registered user. */
  method Action(db: Db, h: Hasher, form: Form, salt: Salt, newId: string) returns (r: Response)
    requires db.Valid() && FreshUserId(db.users, newId)
    modifies db
    ensures db.Valid() && db.posts == old(db.posts) && db.profiles == old(db.profiles)
    // missing or non-text fields: no body, nothing looked up
    ensures ReadForm(form).None? ==> r == NoContent && db.users == old(db.users)
    // a field error: 400 with the errors and the fields, nothing looked up
    ensures ReadForm(form).Some? && Errors(ReadForm(form).value) != map[] ==>
              r == BadRequest(ActionData(None, Errors(ReadForm(form).value), Fields(ReadForm(form).value)))
              && db.users == old(db.users)
    ensures ReadForm(form).Some? && Errors(ReadForm(form).value) == map[] ==>
              var f := ReadForm(form).value;
              && (f.loginType == "login" ==>
                    db.users == old(db.users)
                    && match old(Login(db.users, h, f.username, f.password))
                       case None => r == InvalidCredentials(f)
                       case Some(user) =>
                         && r == Redirect("/posts", Some(SetCookie.Commit(UserClaims(user.id))))
                         && GetUser(db.users, Received(r.setCookie.value), false) == Some(user))
              && (f.loginType == "register" ==>
                    if old(FindUserByUsername(db.users, f.username)).Some? then
                      r == UserExists(f) && db.users == old(db.users)
                    else
                      var user := User(newId, f.username, h.hash(f.password, salt));
                      && db.users == old(db.users)[newId := user]
                      && r == Redirect("/posts", Some(SetCookie.Commit(UserClaims(newId))))
                      && GetUser(db.users, Received(r.setCookie.value), false) == Some(user)
                      && (Sound(h) ==> Login(db.users, h, f.username, f.password) == Some(user)))
              && (f.loginType != "login" && f.loginType != "register" ==>
                    r == BadRequest(ActionData(Some("Login type is invalid"), map[], Fields(f)))
                    && db.users == old(db.users))
  {
    var read := ReadForm(form);
    if read.None? {
      return NoContent;
    }
    var f := read.value;
    var fieldErrors := Errors(f);
    if fieldErrors != map[] {
      return BadRequest(ActionData(None, fieldErrors, Fields(f)));
    }
    if f.loginType == "login" {
      var user := Login(db.users, h, f.username, f.password);
      if user.None? {
        return InvalidCredentials(f);
      }
      r := CreateUserSession(user.value.id, "/posts");
    } else if f.loginType == "register" {
      var userExists := FindUserByUsername(db.users, f.username);
      if userExists.Some? {
        return UserExists(f);
      }
      var user := Register(db, h, f.username, f.password, salt, newId);
      if user.None? {
        // the source answers "Something went wrong" here; `register` repeats
        // the lookup that just found no user, so the branch is dead
        assert false;
      }
      r := CreateUserSession(user.value.id, "/posts");
    } else {
      r := BadRequest(ActionData(Some("Login type is invalid"), map[], Fields(f)));
    }
  }

  /** The route's `loader`: a logged-in user is sent to `/profile`. */
  function Loader(db: Db, cookie: Option<Claims>, lookupFails: bool): (r: Response)
    reads db
    ensures r == Redirect("/profile", None) <==> GetUser(db.users, cookie, lookupFails).Some?
    ensures r == NoContent <==> GetUser(db.users, cookie, lookupFails).None?
  {
    if GetUser(db.users, cookie, lookupFails).Some? then Redirect("/profile", None) else NoContent
  }
}
