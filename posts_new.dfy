/** The `/posts/new` route: post creation for a logged-in user. */
module PostsNew {
  import opened Wrappers
  import opened Store
  import opened Http
  import opened Validators
  import opened SessionServer

  function Checks(title: string, body: string): seq<(string, Option<string>)>
  {
    [("title", ValidateTitle(title)), ("body", ValidateBody(body))]
  }

  function Errors(title: string, body: string): map<string, string>
  {
    FieldErrors(Checks(title, body))
  }

  /** The validation step: a title or body shorter than three characters is
      rejected, and both rejections read "Title must be at least 3
      characters". */
  lemma ErrorsWhenTooShort(title: string, body: string)
    ensures Errors(title, body) == map[] <==> Utf16Length(title) >= 3 && Utf16Length(body) >= 3
    ensures Utf16Length(title) < 3 ==>
              "title" in Errors(title, body) && Errors(title, body)["title"] == "Title must be at least 3 characters"
    ensures Utf16Length(body) < 3 ==>
              "body" in Errors(title, body) && Errors(title, body)["body"] == "Title must be at least 3 characters"
  {
    var c := Checks(title, body);
    assert c[0].1.None? <==> Utf16Length(title) >= 3;
    assert c[1].1.None? <==> Utf16Length(body) >= 3;
    assert DistinctFields(c);
    if Utf16Length(title) < 3 { FieldErrorAt(c, 0); }
    if Utf16Length(body) < 3 { FieldErrorAt(c, 1); }
  }

  /** The route's `action`. `cookie` is the request's session cookie,
      `lookupFails` whether `getUser`'s lookup raises, `newId` the id the store
      gives the post and `now` the store's clock. */
  method Action(db: Db, form: Form, cookie: Option<Claims>, lookupFails: bool, newId: string, now: int)
    returns (r: Response)
    requires db.Valid() && FreshPostId(db.posts, newId)
    modifies db
    ensures db.Valid() && db.users == old(db.users) && db.profiles == old(db.profiles)
    // the form check comes before the login check
    ensures TextField(form, "title").None? || TextField(form, "body").None? ==>
              r == BadRequest(ActionData(Some("Form not submitted correctly."), map[], map[]))
              && db.posts == old(db.posts)
    ensures TextField(form, "title").Some? && TextField(form, "body").Some? ==>
              var title, body := TextField(form, "title").value, TextField(form, "body").value;
              match old(GetUser(db.users, cookie, lookupFails))
              case None =>
                && r == BadRequest(ActionData(Some("User need to login to create post"), map[], map[]))
                && db.posts == old(db.posts)
              case Some(user) =>
                if Errors(title, body) != map[] then
                  && r == BadRequest(ActionData(None, Errors(title, body), map["title" := title, "body" := body]))
                  && db.posts == old(db.posts)
                else
                  && db.posts == old(db.posts) + [Post(newId, user.id, title, body, now)]
                  && r == Redirect("/posts/" + newId, None)
  {
    var title := TextField(form, "title");
    var body := TextField(form, "body");
    var user := GetUser(db.users, cookie, lookupFails);
    if title.None? || body.None? {
      return BadRequest(ActionData(Some("Form not submitted correctly."), map[], map[]));
    }
    if user.None? {
      return BadRequest(ActionData(Some("User need to login to create post"), map[], map[]));
    }
    var fields := map["title" := title.value, "body" := body.value];
    var fieldErrors := Errors(title.value, body.value);
    if fieldErrors != map[] {
      return BadRequest(ActionData(None, fieldErrors, fields));
    }
    var post := db.CreatePost(newId, user.value.id, title.value, body.value, now);
    r := Redirect("/posts/" + post.id, None);
  }

  /** The route's `loader`: a 404 for visitors who are not logged in, the
      current user otherwise. */
  function Loader(db: Db, cookie: Option<Claims>, lookupFails: bool): (r: Outcome<User>)
    reads db
    ensures r.Respond? <==> GetUser(db.users, cookie, lookupFails).None?
    ensures r.Respond? ==> r.response == NotFound
    ensures r.Data? ==> Some(r.value) == GetUser(db.users, cookie, lookupFails)
  {
    match GetUser(db.users, cookie, lookupFails)
    case None => Respond(NotFound)
    case Some(user) => Data(user)
  }
}
