/** The field validators of the route forms. Each gives the message shown
    under a field, or `None` when the value is acceptable. The login, register,
    new-post and profile-edit routes each declare their own copies; the copies
    with the same name have the same text, so each is defined once here. */
module Validators {
  import opened Wrappers

  /** `validator.isEmail` and `validator.isMobilePhone`, a foreign library the
      model does not interpret. */
  datatype FormatChecks = FormatChecks(isEmail: string -> bool, isMobilePhone: string -> bool)

  /** JavaScript's `.length`: the number of UTF-16 code units, so a
      character outside the Basic Multilingual Plane counts twice. */
  function Utf16Length(s: string): (n: nat)
    ensures |s| <= n <= 2 * |s|
    ensures (forall i :: 0 <= i < |s| ==> (s[i] as int) < 0x1_0000) ==> n == |s|
    ensures (forall i :: 0 <= i < |s| ==> (s[i] as int) >= 0x1_0000) ==> n == 2 * |s|
  {
    if s == [] then 0
    else (if (s[0] as int) >= 0x1_0000 then 2 else 1) + Utf16Length(s[1..])
  }

  /** A password of two emoji has length 4 and is accepted. */
  lemma AstralCharactersCountTwice()
    ensures Utf16Length("\U{1F600}\U{1F600}") == 4 && ValidatePassword("\U{1F600}\U{1F600}").None?
  {
  }

  function ValidateUsername(username: string): (r: Option<string>)
    ensures r.None? <==> Utf16Length(username) >= 3
    ensures r.Some? ==> r.value == "Username must be at least 3 characters"
  {
    if Utf16Length(username) < 3 then Some("Username must be at least 3 characters") else None
  }

  function ValidatePassword(password: string): (r: Option<string>)
    ensures r.None? <==> Utf16Length(password) >= 3
    ensures r.Some? ==> r.value == "Password must be at least 3 characters"
  {
    if Utf16Length(password) < 3 then Some("Password must be at least 3 characters") else None
  }

  function ValidateFullname(name: string): (r: Option<string>)
    ensures r.None? <==> Utf16Length(name) >= 4
    ensures r.Some? ==> r.value == "Full name must be at least 4 characters"
  {
    if Utf16Length(name) < 4 then Some("Full name must be at least 4 characters") else None
  }

  function ValidateEmail(checks: FormatChecks, email: string): (r: Option<string>)
    ensures r.None? <==> checks.isEmail(email)
    ensures r.Some? ==> r.value == "Invalid email address"
  {
    if !checks.isEmail(email) then Some("Invalid email address") else None
  }

  function ValidatePhoneNumber(checks: FormatChecks, phoneNumber: string): (r: Option<string>)
    ensures r.None? <==> checks.isMobilePhone(phoneNumber)
    ensures r.Some? ==> r.value == "Invalid mobile phone"
  {
    if !checks.isMobilePhone(phoneNumber) then Some("Invalid mobile phone") else None
  }

  function ValidateTitle(title: string): (r: Option<string>)
    ensures r.None? <==> Utf16Length(title) >= 3
    ensures r.Some? ==> r.value == "Title must be at least 3 characters"
  {
    if Utf16Length(title) < 3 then Some("Title must be at least 3 characters") else None
  }

  /** The body check reuses the title's message word for word. */
  function ValidateBody(body: string): (r: Option<string>)
    ensures r.None? <==> Utf16Length(body) >= 3
    ensures r.Some? ==> r.value == "Title must be at least 3 characters"
  {
    if Utf16Length(body) < 3 then Some("Title must be at least 3 characters") else None
  }
}
