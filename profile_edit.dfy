/** The `/profile/edit` route: the logged-in user's profile form. */
module ProfileEdit {
  import opened Wrappers
  import opened Store
  import opened Http
  import opened Validators
  import opened SessionServer

  /** The route's `loader`: visitors who are not logged in go to the login
      page; otherwise the first profile that belongs to the current user, if
      any. */
  function Loader(db: Db, cookie: Option<Claims>, lookupFails: bool): (r: Outcome<Option<Profile>>)
    reads db
    ensures r.Respond? <==> GetUser(db.users, cookie, lookupFails).None?
    ensures r.Respond? ==> r.response == Redirect("/auth/login", None)
    ensures r.Data? && r.value.Some? ==> r.value.value in db.profiles
                                         && r.value.value.userId == GetUser(db.users, cookie, lookupFails).value.id
    ensures r.Data? && r.value.None? ==>
              forall p :: p in db.profiles ==> p.userId != GetUser(db.users, cookie, lookupFails).value.id
  {
    match GetUser(db.users, cookie, lookupFails)
    case None => Respond(Redirect("/auth/login", None))
    case Some(user) => Data(FirstProfileOf(db.profiles, user.id))
  }

  datatype EditForm = EditForm(email: string, name: string, id: string, phoneNumber: string)

  /** The `typeof … !== "string"` checks on the four fields. */
  function ReadForm(form: Form): (r: Option<EditForm>)
    ensures r.Some? <==> TextField(form, "email").Some? && TextField(form, "name").Some?
                         && TextField(form, "id").Some? && TextField(form, "phoneNumber").Some?
    ensures r.Some? ==> TextField(form, "email") == Some(r.value.email)
                        && TextField(form, "name") == Some(r.value.name)
                        && TextField(form, "id") == Some(r.value.id)
                        && TextField(form, "phoneNumber") == Some(r.value.phoneNumber)
  {
    match (TextField(form, "email"), TextField(form, "name"), TextField(form, "id"), TextField(form, "phoneNumber"))
    case (Some(email), Some(name), Some(id), Some(phoneNumber)) => Some(EditForm(email, name, id, phoneNumber))
    case _ => None
  }

  function Fields(f: EditForm): map<string, string>
  {
    map["email" := f.email, "phoneNumber" := f.phoneNumber, "name" := f.name]
  }

  function Checks(checks: FormatChecks, f: EditForm): seq<(string, Option<string>)>
  {
    [("phoneNumber", ValidatePhoneNumber(checks, f.phoneNumber)),
     ("email", ValidateEmail(checks, f.email)),
     ("name", ValidateFullname(f.name))]
  }

  function Errors(checks: FormatChecks, f: EditForm): map<string, string>
  {
    FieldErrors(Checks(checks, f))
  }

  /** The validation step: the form passes exactly when the name has at least
      four characters and the email address and phone number satisfy the
      format checks; each failing field carries its own message. */
  lemma ErrorsIffInvalid(checks: FormatChecks, f: EditForm)
    ensures Errors(checks, f) == map[] <==>
              Utf16Length(f.name) >= 4 && checks.isEmail(f.email) && checks.isMobilePhone(f.phoneNumber)
    ensures !checks.isMobilePhone(f.phoneNumber) ==>
              "phoneNumber" in Errors(checks, f) && Errors(checks, f)["phoneNumber"] == "Invalid mobile phone"
    ensures !checks.isEmail(f.email) ==>
              "email" in Errors(checks, f) && Errors(checks, f)["email"] == "Invalid email address"
    ensures Utf16Length(f.name) < 4 ==>
              "name" in Errors(checks, f) && Errors(checks, f)["name"] == "Full name must be at least 4 characters"
  {
    var c := Checks(checks, f);
    assert c[0].1.None? <==> checks.isMobilePhone(f.phoneNumber);
    assert c[1].1.None? <==> checks.isEmail(f.email);
    assert c[2].1.None? <==> Utf16Length(f.name) >= 4;
    assert DistinctFields(c);
    if !checks.isMobilePhone(f.phoneNumber) { FieldErrorAt(c, 0); }
    if !checks.isEmail(f.email) { FieldErrorAt(c, 1); }
    if Utf16Length(f.name) < 4 { FieldErrorAt(c, 2); }
  }

  /** The route's `action`. It reads no session and checks no ownership: the
      profile whose id the form names is updated, whoever sent the form. */
  method Action(db: Db, checks: FormatChecks, form: Form) returns (r: Response)
    requires db.Valid()
    modifies db
    ensures db.Valid() && db.users == old(db.users) && db.posts == old(db.posts)
    ensures ReadForm(form).None? ==> r == NoContent && db.profiles == old(db.profiles)
    ensures ReadForm(form).Some? && Errors(checks, ReadForm(form).value) != map[] ==>
              var f := ReadForm(form).value;
              r == BadRequest(ActionData(None, Errors(checks, f), Fields(f))) && db.profiles == old(db.profiles)
    ensures ReadForm(form).Some? && Errors(checks, ReadForm(form).value) == map[] ==>
              var f := ReadForm(form).value;
              if HasProfile(old(db.profiles), f.id) then
                && db.profiles == UpdateContact(old(db.profiles), f.id, f.email, f.name, f.phoneNumber)
                && r == Redirect("/profile", None)
              else
                r == StoreFailure && db.profiles == old(db.profiles)
  {
    var read := ReadForm(form);
    if read.None? {
      return NoContent;
    }
    var f := read.value;
    var fieldErrors := Errors(checks, f);
    if fieldErrors != map[] {
      return BadRequest(ActionData(None, fieldErrors, Fields(f)));
    }
    var found := db.UpdateProfile(f.id, f.email, f.name, f.phoneNumber);
    if !found {
      return StoreFailure;
    }
    r := Redirect("/profile", None);
  }

  /** The action as written lets a visitor who is not logged in rewrite
      another user's profile: here `alice`'s profile takes the name the form
      sends. */
  method ForeignEditExample() returns (r: Response, edited: Profile)
    ensures r == Redirect("/profile", None)
    ensures edited.userId == "alice" && edited.name == "Mallory"
  {
    var db := new Db();
    db.profiles := [Profile("p1", "alice", "Alice Liddell", "alice@example.com", "0123456789", "alice.png")];
    var checks := FormatChecks(s => true, s => true);
    var form := map["email" := Field("m@example.com"), "name" := Field("Mallory"),
                    "id" := Field("p1"), "phoneNumber" := Field("0987654321")];
    assert ReadForm(form) == Some(EditForm("m@example.com", "Mallory", "p1", "0987654321"));
    ErrorsIffInvalid(checks, ReadForm(form).value);
    assert db.profiles[0].id == "p1";
    r := Action(db, checks, form);
    edited := db.profiles[0];
  }

  /** The profile with id `id` belongs to `userId`. */
  ghost predicate OwnedBy(profiles: seq<Profile>, id: string, userId: string)
  {
    exists i :: 0 <= i < |profiles| && profiles[i].id == id && profiles[i].userId == userId
  }

  /** The action with the ownership gate the post page applies to deletion:
      the update happens only when the current user owns the profile the form
      names; otherwise nothing changes and the answer is the same redirect. */
  method OwnerAction(db: Db, checks: FormatChecks, form: Form, cookie: Option<Claims>, lookupFails: bool)
    returns (r: Response)
    requires db.Valid()
    modifies db
    ensures db.Valid() && db.users == old(db.users) && db.posts == old(db.posts)
    ensures ReadForm(form).None? ==> r == NoContent && db.profiles == old(db.profiles)
    ensures ReadForm(form).Some? && Errors(checks, ReadForm(form).value) != map[] ==>
              var f := ReadForm(form).value;
              r == BadRequest(ActionData(None, Errors(checks, f), Fields(f))) && db.profiles == old(db.profiles)
    ensures ReadForm(form).Some? && Errors(checks, ReadForm(form).value) == map[] ==>
              var f := ReadForm(form).value;
              var user := GetUser(db.users, cookie, lookupFails);
              && r == Redirect("/profile", None)
              && db.profiles == if user.Some? && OwnedBy(old(db.profiles), f.id, user.value.id)
                                then UpdateContact(old(db.profiles), f.id, f.email, f.name, f.phoneNumber)
                                else old(db.profiles)
    // the ownership invariant: a profile changes only for its logged-in owner
    ensures |db.profiles| == |old(db.profiles)|
    ensures forall i :: 0 <= i < |db.profiles| && db.profiles[i] != old(db.profiles)[i] ==>
              GetUser(db.users, cookie, lookupFails).Some?
              && old(db.profiles)[i].userId == GetUser(db.users, cookie, lookupFails).value.id
  {
    var read := ReadForm(form);
    if read.None? {
      return NoContent;
    }
    var f := read.value;
    var fieldErrors := Errors(checks, f);
    if fieldErrors != map[] {
      return BadRequest(ActionData(None, fieldErrors, Fields(f)));
    }
    var user := GetUser(db.users, cookie, lookupFails);
    var target := FirstProfileWithId(db.profiles, f.id);
    if user.Some? && target.Some? && target.value.userId == user.value.id {
      ghost var before := db.profiles;
      var found := db.UpdateProfile(f.id, f.email, f.name, f.phoneNumber);
      forall i | 0 <= i < |db.profiles| && db.profiles[i] != before[i]
        ensures before[i].userId == user.value.id
      {
        var j :| 0 <= j < |before| && before[j] == target.value;
        assert before[i].id == f.id == before[j].id;
      }
    }
    r := Redirect("/profile", None);
  }

  /** `db.profile.findUnique({ where: { id } })` over the profile table. */
  function FirstProfileWithId(profiles: seq<Profile>, id: string): (r: Option<Profile>)
    ensures r.Some? ==> r.value in profiles && r.value.id == id
    ensures r.None? ==> forall p :: p in profiles ==> p.id != id
  {
    if profiles == [] then None
    else if profiles[0].id == id then Some(profiles[0])
    else FirstProfileWithId(profiles[1..], id)
  }
}
