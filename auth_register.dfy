/** The `/auth/register` route: a sign-up form with profile fields. */
module AuthRegister {
  import opened Wrappers
  import opened Store
  import opened Bcrypt
  import opened Http
  import opened Validators
  import opened SessionServer

  datatype RegisterForm = RegisterForm(username: string, password: string, email: string,
                                       name: string, phoneNumber: string)

  /** The `typeof … !== "string"` checks on the five fields. */
  function ReadForm(form: Form): (r: Option<RegisterForm>)
    ensures r.Some? <==> TextField(form, "username").Some? && TextField(form, "password").Some?
                         && TextField(form, "email").Some? && TextField(form, "name").Some?
                         && TextField(form, "phoneNumber").Some?
    ensures r.Some? ==> TextField(form, "username") == Some(r.value.username)
                        && TextField(form, "password") == Some(r.value.password)
                        && TextField(form, "email") == Some(r.value.email)
                        && TextField(form, "name") == Some(r.value.name)
                        && TextField(form, "phoneNumber") == Some(r.value.phoneNumber)
  {
    match (TextField(form, "username"), TextField(form, "password"), TextField(form, "email"),
           TextField(form, "name"), TextField(form, "phoneNumber"))
    case (Some(username), Some(password), Some(email), Some(name), Some(phoneNumber)) =>
      Some(RegisterForm(username, password, email, name, phoneNumber))
    case _ => None
  }

  function Fields(f: RegisterForm): map<string, string>
  {
    map["username" := f.username, "password" := f.password, "email" := f.email,
        "phoneNumber" := f.phoneNumber, "name" := f.name]
  }

  function Checks(checks: FormatChecks, f: RegisterForm): seq<(string, Option<string>)>
  {
    [("username", ValidateUsername(f.username)),
     ("password", ValidatePassword(f.password)),
     ("phoneNumber", ValidatePhoneNumber(checks, f.phoneNumber)),
     ("email", ValidateEmail(checks, f.email)),
     ("name", ValidateFullname(f.name))]
  }

  function Errors(checks: FormatChecks, f: RegisterForm): map<string, string>
  {
    FieldErrors(Checks(checks, f))
  }

  /** The validation step: the form passes exactly when the username and the
      password have at least three characters, the name at least four, and
      the email address and phone number satisfy the format checks. */
  lemma ErrorsIffInvalid(checks: FormatChecks, f: RegisterForm)
    ensures Errors(checks, f) == map[] <==>
              Utf16Length(f.username) >= 3 && Utf16Length(f.password) >= 3 && Utf16Length(f.name) >= 4
              && checks.isEmail(f.email) && checks.isMobilePhone(f.phoneNumber)
  {
    var c := Checks(checks, f);
    assert c[0].1.None? <==> Utf16Length(f.username) >= 3;
    assert c[1].1.None? <==> Utf16Length(f.password) >= 3;
    assert c[2].1.None? <==> checks.isMobilePhone(f.phoneNumber);
    assert c[3].1.None? <==> checks.isEmail(f.email);
    assert c[4].1.None? <==> Utf16Length(f.name) >= 4;
  }

  /** The five checks are on five different fields. */
  lemma ChecksDistinct(checks: FormatChecks, f: RegisterForm)
    ensures DistinctFields(Checks(checks, f))
  {
  }

  /** Each failing field carries its own message. */
  lemma ErrorMessages(checks: FormatChecks, f: RegisterForm)
    ensures Utf16Length(f.username) < 3 ==>
              "username" in Errors(checks, f) && Errors(checks, f)["username"] == "Username must be at least 3 characters"
    ensures Utf16Length(f.password) < 3 ==>
              "password" in Errors(checks, f) && Errors(checks, f)["password"] == "Password must be at least 3 characters"
    ensures !checks.isMobilePhone(f.phoneNumber) ==>
              "phoneNumber" in Errors(checks, f) && Errors(checks, f)["phoneNumber"] == "Invalid mobile phone"
    ensures !checks.isEmail(f.email) ==>
              "email" in Errors(checks, f) && Errors(checks, f)["email"] == "Invalid email address"
    ensures Utf16Length(f.name) < 4 ==>
              "name" in Errors(checks, f) && Errors(checks, f)["name"] == "Full name must be at least 4 characters"
  {
    var c := Checks(checks, f);
    ChecksDistinct(checks, f);
    if Utf16Length(f.username) < 3 { FieldErrorAt(c, 0); }
    if Utf16Length(f.password) < 3 { FieldErrorAt(c, 1); }
    if !checks.isMobilePhone(f.phoneNumber) { FieldErrorAt(c, 2); }
    if !checks.isEmail(f.email) { FieldErrorAt(c, 3); }
    if Utf16Length(f.name) < 4 { FieldErrorAt(c, 4); }
  }

  /** The route's `action`. Name, email address and phone number are
      validated and handed to `register`, which stores none of them. */
  method Action(db: Db, h: Hasher, checks: FormatChecks, form: Form, salt: Salt, newId: string)
    returns (r: Response)
    requires db.Valid() && FreshUserId(db.users, newId)
    modifies db
    ensures db.Valid() && db.posts == old(db.posts) && db.profiles == old(db.profiles)
    ensures ReadForm(form).None? ==> r == NoContent && db.users == old(db.users)
    ensures ReadForm(form).Some? && Errors(checks, ReadForm(form).value) != map[] ==>
              var f := ReadForm(form).value;
              r == BadRequest(ActionData(None, Errors(checks, f), Fields(f))) && db.users == old(db.users)
    ensures ReadForm(form).Some? && Errors(checks, ReadForm(form).value) == map[] ==>
              var f := ReadForm(form).value;
              if old(FindUserByUsername(db.users, f.username)).Some? then
                && r == BadRequest(ActionData(None, map["username" := "User " + f.username + " already exists"],
                                              Fields(f)))
                && db.users == old(db.users)
              else
                var user := User(newId, f.username, h.hash(f.password, salt));
                && db.users == old(db.users)[newId := user]
                && r == Redirect("/posts", Some(SetCookie.Commit(UserClaims(newId))))
                && GetUser(db.users, Received(r.setCookie.value), false) == Some(user)
                && (Sound(h) ==> Login(db.users, h, f.username, f.password) == Some(user))
  {
    var read := ReadForm(form);
    if read.None? {
      return NoContent;
    }
    var f := read.value;
    var fieldErrors := Errors(checks, f);
    if fieldErrors != map[] {
      return BadRequest(ActionData(None, fieldErrors, Fields(f)));
    }
    var userExists := FindUserByUsername(db.users, f.username);
    if userExists.Some? {
      return BadRequest(ActionData(None, map["username" := "User " + f.username + " already exists"], Fields(f)));
    }
    var user := Register(db, h, f.username, f.password, salt, newId);
    if user.None? {
      // the source answers "Something went wrong" here; `register` repeats
      // the lookup that just found no user, so the branch is dead
      assert false;
    }
    r := CreateUserSession(user.value.id, "/posts");
  }
}
