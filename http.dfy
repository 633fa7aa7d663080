/** What the routes receive and answer: submitted forms, cookie claims and
    responses. */
module Http {
  import opened Wrappers

  /** A value of a submitted form: text, or an uploaded file. */
  datatype Entry = Field(text: string) | Upload

  /** A submitted form; a name that was not submitted is absent. */
  type Form = map<string, Entry>

  /** `form.get(name)` narrowed by `typeof … === "string"`. */
  function TextField(form: Form, name: string): (r: Option<string>)
    ensures r.Some? <==> name in form && form[name].Field?
    ensures r.Some? ==> form[name] == Field(r.value)
  {
    if name in form && form[name].Field? then Some(form[name].text) else None
  }

  /** A JSON value stored under a claim name in the session. */
  datatype Claim = Str(s: string) | Num(n: int) | Flag(b: bool)

  /** The data of a session: claim name to value. */
  type Claims = map<string, Claim>

  /** A `Set-Cookie` header: the committed session data, or the instruction
      that clears the cookie. Signing and cookie attributes are not modelled. */
  datatype SetCookie = Commit(claims: Claims) | Destroy

  /** The cookie a browser sends on its next request after receiving `c`:
      `None` stands for no cookie at all. */
  function Received(c: SetCookie): (cookie: Option<Claims>)
    ensures c.Commit? ==> cookie == Some(c.claims)
    ensures c.Destroy? ==> cookie.None?
  {
    match c
    case Commit(claims) => Some(claims)
    case Destroy => None
  }

  /** The JSON body of a 400 answer: an optional form error, the field errors
      that are present and the echoed fields. */
  datatype ActionData = ActionData(formError: Option<string>, fieldErrors: map<string, string>, fields: map<string, string>)

  /** What a route action or loader answers with. */
  datatype Response =
    | NoContent                                          // the route returned `null`
    | BadRequest(data: ActionData)                       // `json(data, { status: 400 })`
    | Redirect(location: string, setCookie: Option<SetCookie>)
    | NotFound                                           // a thrown 404 `Response`
    | ServerError(message: string)                       // a thrown `Error`
    | StoreFailure                                       // an exception raised by the data store

  /** What a loader produces: data for the page, or a response in its place. */
  datatype Outcome<+T> = Data(value: T) | Respond(response: Response)

  /** The field-error object of a route, with the `undefined` entries dropped:
      each check pairs a field name with its validator's result. */
  function FieldErrors(checks: seq<(string, Option<string>)>): (m: map<string, string>)
    ensures m == map[] <==> forall i :: 0 <= i < |checks| ==> checks[i].1.None?
    ensures forall k :: k in m ==> exists i :: 0 <= i < |checks| && checks[i].0 == k && checks[i].1 == Some(m[k])
    ensures forall i :: 0 <= i < |checks| && checks[i].1.Some? ==> checks[i].0 in m
  {
    if checks == [] then map[]
    else
      var rest := FieldErrors(checks[1..]);
      assert forall i :: 1 <= i < |checks| ==> checks[i] == checks[1..][i - 1];
      match checks[0].1
      case None => rest
      case Some(message) =>
        var m := rest[checks[0].0 := message];
        assert checks[0].0 in m;
        m
  }

  /** No field is checked twice. */
  ghost predicate DistinctFields(checks: seq<(string, Option<string>)>)
  {
    forall i, j :: 0 <= i < j < |checks| ==> checks[i].0 != checks[j].0
  }

  /** A failed check shows its own message under its field. */
  lemma FieldErrorAt(checks: seq<(string, Option<string>)>, i: int)
    requires DistinctFields(checks) && 0 <= i < |checks| && checks[i].1.Some?
    ensures checks[i].0 in FieldErrors(checks) && FieldErrors(checks)[checks[i].0] == checks[i].1.value
  {
  }
}
