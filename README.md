# Remix blog: credentials, sessions and authorization in Dafny

This project models the authentication and authorization decision code of a
small Remix blog. Users register and log in with a username and a bcrypt-hashed
password. A cookie session carries a single `userId` claim. Route actions and
loaders validate forms, consult the session and read or write the database.
Two view components decide whether to show the delete button of a post and the
edit link of a profile.

The model has these parts:

- `Store`: the user table (a map keyed by id, with unique usernames), the post
  and profile tables (sequences in table order), the queries the routes issue,
  and the class `Db` whose methods perform the three writes: create a user,
  create a post and update a profile.
- `Bcrypt`: the hasher as two uninterpreted functions, `hash(password, salt)`
  and `compare(password, digest)`. The predicate `Sound` states the one fact
  the application relies on: a password verifies against its own digest.
- `Http`: submitted forms, session claims, `Set-Cookie` instructions, the
  400 body and the responses, plus the field-error object that every route
  builds from its validators.
- `SessionServer`: `login`, `register`, the `Session` object,
  `createUserSession`, `getUser`, `logout` and the startup secret check.
- `Validators`: the field validators. `validator.isEmail` and
  `validator.isMobilePhone` are a `FormatChecks` parameter.
- `AuthLogin`, `AuthRegister`, `PostsNew`, `ProfileEdit`, `ProfileIndex`: the
  actions and loaders of the five routes. Each action is a module-level method
  that takes the database `db: Db` as a parameter and may modify it. Its
  postconditions give the response and the new tables for every branch.
- `PostView`, `ProfileView`: the two visibility predicates.

Things the environment provides are parameters. These are the salt bcrypt
draws, the id the database generates for a new row, the database clock,
whether `getUser`'s lookup raises an error, and the request's cookie. A cookie
that is absent and a cookie that fails its signature check both reach the
code as `None`.

In these places the model follows the code rather than what it evidently
intends:

- The profile edit action checks neither the session nor ownership (see
  Findings).
- `register` stores only the username and the password hash; the profile
  fields the register route hands it are dropped.
- `getUser` treats an empty-string `userId` claim as no user (`!userId`).
- A failed login answers `" Invalid credentials"`, with a leading space.
- The length checks count UTF-16 code units, as JavaScript's `.length` does,
  so a character outside the Basic Multilingual Plane counts twice.

## Model

| member | source | states |
|---|---|---|
| `Http.TextField` | app/routes/auth/login.tsx:46-55 | a field is read iff it was submitted as text, and then the value is the submitted text |
| `Http.FieldErrors` | app/routes/auth/login.tsx:58-63 | the error object is empty iff every validator passed; each entry comes from a failing check on that field with that check's message |
| `Http.FieldErrorAt` | app/routes/auth/register.tsx:75-81 | when field names are distinct, a failing check's message is shown under its own field |
| `Store.FindUserByUsername` | app/utils/session.server.ts:14-18 | finds a user iff one has that username, and returns exactly the stored record |
| `Store.FindUserById` | app/utils/session.server.ts:91-95 | finds a user iff the id is a key of the user table, and then it is the stored record |
| `Store.FirstProfileOf` | app/routes/profile/edit.tsx:20-24 | returns none iff no profile belongs to the user; otherwise a profile of that user with no profile of theirs before it in table order |
| `Store.PostsOf` | app/routes/profile/index.tsx:21-29 | a post is listed iff it is in the table and belongs to the user, as many times as it occurs in the table |
| `Store.UpdateContact` | app/routes/profile/edit.tsx:87-96 | the table keeps its length; rows with another id are unchanged; the row with the id gets the new email, name and phone and keeps its id, owner and image |
| `Store.Db.CreateUser` | app/utils/session.server.ts:40-45 | exactly one user is added under the new id; posts and profiles are untouched; the table invariant is kept |
| `Store.Db.CreatePost` | app/routes/posts/new.tsx:80-85 | exactly one post is appended with the given fields; users and profiles are untouched |
| `Store.Db.UpdateProfile` | app/routes/profile/edit.tsx:87-96 | updates the profile table iff a profile has the id, otherwise nothing changes and the store reports an error |
| `SessionServer.SessionSecret` | app/utils/session.server.ts:49-52 | startup succeeds iff the secret is present and non-empty; otherwise "No session secret" |
| `SessionServer.Login` | app/utils/session.server.ts:12-27 | returns a user iff a stored user has the username and the password verifies against its hash; the result is the stored record; an unknown username gives `None`, the same value a wrong password gives |
| `SessionServer.Register` | app/utils/session.server.ts:30-46 | a taken username gives `None` and no change; otherwise exactly one user with the username and `hash(password, salt)` is added; afterwards `login` with the same credentials returns it |
| `SessionServer.RegisterThenLogin` | app/utils/session.server.ts:22-45 | round trip: after a registration on a free username, `login` with the same password returns the new user, given `compare(p, hash(p, s))` |
| `SessionServer.Session.constructor` | app/utils/session.server.ts:78-80 | a session decoded from the request holds the cookie's claims, or none without a cookie |
| `SessionServer.Session.Set` | app/utils/session.server.ts:69 | sets one claim and keeps the others |
| `SessionServer.CreateUserSession` | app/utils/session.server.ts:67-75 | redirects to the given path with a cookie holding exactly the `userId` claim |
| `SessionServer.GetUser` | app/utils/session.server.ts:83-100 | returns a user iff there is a cookie with a non-empty string `userId` claim naming a stored user and the lookup does not fail; then it is that user |
| `SessionServer.Logout` | app/utils/session.server.ts:103-110 | redirects to `/auth/logout` and destroys the cookie whatever the request carried |
| `SessionServer.SessionRoundTrip` | app/utils/session.server.ts:67-96 | the cookie made for a stored user's id resolves back to that user |
| `SessionServer.LogoutEndsSession` | app/utils/session.server.ts:104-107 | after logout, `getUser` finds no user |
| `Validators.Utf16Length` | app/routes/auth/login.tsx:17 | JavaScript's `.length`: between the number of characters and twice it; equal to it when no character is outside the Basic Multilingual Plane, twice it when all are |
| `Validators.AstralCharactersCountTwice` | app/routes/auth/login.tsx:23 | a password of two emoji has length 4 and is accepted |
| `Validators.ValidateUsername` | app/routes/auth/login.tsx:16-20 | error iff shorter than 3 UTF-16 code units, with the username message |
| `Validators.ValidatePassword` | app/routes/auth/login.tsx:22-26 | error iff shorter than 3 UTF-16 code units, with the password message |
| `Validators.ValidateFullname` | app/routes/auth/register.tsx:13-17 | error iff shorter than 4 UTF-16 code units, with the full-name message |
| `Validators.ValidateEmail` | app/routes/auth/register.tsx:46-50 | error iff the email check fails: "Invalid email address" |
| `Validators.ValidatePhoneNumber` | app/routes/auth/register.tsx:51-55 | error iff the phone check fails: "Invalid mobile phone" |
| `Validators.ValidateTitle` | app/routes/posts/new.tsx:27-31 | error iff shorter than 3 UTF-16 code units |
| `Validators.ValidateBody` | app/routes/posts/new.tsx:32-36 | error iff shorter than 3 UTF-16 code units; the message is the title's text |
| `AuthLogin.ReadForm` | app/routes/auth/login.tsx:45-55 | the form is read iff `loginType`, `username` and `password` are all text, and the values are the submitted ones |
| `AuthLogin.ErrorsWhenTooShort` | app/routes/auth/login.tsx:57-65 | the form is rejected iff the username or password is shorter than 3 characters, with that field's message |
| `AuthLogin.Action` | app/routes/auth/login.tsx:44-118 | non-text fields give no body; field errors give a 400 with errors and fields; "login" gives " Invalid credentials" on failure, or a redirect to /posts whose cookie resolves to the stored user; "register" gives "User … already exists" on a taken name, or adds exactly one user and redirects with a session for it; "Something went wrong" is never returned; other types give "Login type is invalid"; the users change only on a registration |
| `AuthLogin.Loader` | app/routes/auth/login.tsx:208-215 | redirects to /profile iff a user is logged in, otherwise no content |
| `AuthRegister.ReadForm` | app/routes/auth/register.tsx:58-72 | the form is read iff all five fields are text |
| `AuthRegister.ErrorsIffInvalid` | app/routes/auth/register.tsx:74-85 | the form passes iff username and password have at least 3 characters, the name at least 4, and email and phone pass their checks |
| `AuthRegister.ErrorMessages` | app/routes/auth/register.tsx:75-81 | each failing field carries its own message |
| `AuthRegister.Action` | app/routes/auth/register.tsx:57-118 | no body for non-text fields; a 400 and no change on field errors; a taken username gives "User … already exists" and no change; otherwise exactly one user with username and hash is added, profiles are untouched, and the redirect's cookie resolves to the new user |
| `PostsNew.ErrorsWhenTooShort` | app/routes/posts/new.tsx:71-78 | the post is rejected iff title or body is shorter than 3 characters; both messages read "Title must be at least 3 characters" |
| `PostsNew.Action` | app/routes/posts/new.tsx:44-88 | "Form not submitted correctly." before the login check; "User need to login to create post" without a user; 400 with the fields on field errors; otherwise exactly one post with the title, body and the user's id, and a redirect to `/posts/{id}`; no post on any error |
| `PostsNew.Loader` | app/routes/posts/new.tsx:90-98 | 404 iff no user is logged in, otherwise the user |
| `ProfileEdit.Loader` | app/routes/profile/edit.tsx:14-26 | redirect to /auth/login iff no user; otherwise a profile of the user, or none iff the user has no profile |
| `ProfileEdit.ReadForm` | app/routes/profile/edit.tsx:64-76 | the form is read iff email, name, id and phone are all text |
| `ProfileEdit.ErrorsIffInvalid` | app/routes/profile/edit.tsx:77-86 | the form passes iff the name has at least 4 characters and email and phone pass their checks; each failing field carries its message |
| `ProfileEdit.Action` | app/routes/profile/edit.tsx:63-99 | no body for non-text fields; 400 and no change on errors; otherwise only email, name and phone of the profile with the submitted id change and the answer redirects to /profile; no session is consulted |
| `ProfileEdit.ForeignEditExample` | app/routes/profile/edit.tsx:87-98 | a request without any session rewrites the name of another user's profile |
| `ProfileEdit.OwnerAction` | app/routes/profile/edit.tsx:63-98 | the corrected action: a profile changes only when the logged-in user owns it |
| `ProfileIndex.Loader` | app/routes/profile/index.tsx:11-45 | no content without a user; "Server Error" iff the user has no profile; page data iff the user has one, and then the user's profile, its owner's posts and the user's id |
| `ProfileIndex.Timeline` | app/routes/profile/index.tsx:48-53 | one item per post in the same order; title followed by one space, and the body |
| `ProfileIndex.ShowsTimeline` | app/routes/profile/index.tsx:62 | the timeline is drawn iff there is at least one post |
| `ProfileIndex.OwnerSeesEditLink` | app/routes/profile/index.tsx:44-56 | on the profile page the logged-in owner always sees the edit link |
| `PostView.ShowsDelete` | app/components/PostView.tsx:12-26 | delete shown iff a user is present and owns the post; independent of `disable`, title and body; never with no user (the new-post preview) |
| `ProfileView.ShowsEditLink` | app/components/ProfileView.tsx:40 | edit link shown iff the caller's id equals the profile's owner; never without a caller id |

The route files each declare their own copies of the validators:
login.tsx:16-26, register.tsx:8-17 and 40-55, new.tsx:27-36 and
edit.tsx:46-61. Copies with the same name have the same text, so each is
defined once in `Validators`.

## Left out

- Password hashing itself: the salt rounds (cost 10), the bcrypt algorithm and constant-time comparison. `Hasher` leaves both functions uninterpreted.
- Cookie signing, tamper detection, the 60-day expiry and the cookie attributes (name, Secure, HttpOnly, SameSite, Path). The session is its claim map. A rejected cookie and a missing cookie both appear as `None`.
- The database's query language, `select` projections and relation joins. Each query is a function over a table. The profile page's `user.posts` is `Store.PostsOf` of the profile owner.
- Asynchrony and concurrency: the model is sequential. The race between two registrations of one username is not modelled. In this model it is why the "Something went wrong" branch is dead.
- Store and hasher failures other than two: only `getUser`'s failing lookup and `profile.update`'s record-not-found are modelled. The lookups in `login` and `register` (session.server.ts:14,32), `db.user.create` (session.server.ts:40), `db.post.create` (posts/new.tsx:80), the loaders' `findFirst` (profile/edit.tsx:20, profile/index.tsx:16) and a rejected `bcrypt.hash` or `bcrypt.compare` raise uncaught exceptions in the code; in the model these operations always succeed.
- Rendering: markup, `useActionData`, transitions, catch and error boundaries, and the layout and listing routes (`root.tsx`, `routes/index.tsx`, `routes/posts/index.tsx`).
- The timeline's date fields (`toLocaleTimeString`, `toLocaleDateString`): they depend on the locale.
- `getDefaultUser`: it looks up a hard-coded id and no core route uses it. The post page's delete action (`routes/posts/$postId.tsx`) is not part of this model beyond `PostView.ShowsDelete`.
- Store.Db.CreateUser: requires a free username. The database's unique constraint would raise an error instead; both callers check first.
- Store.PostsOf: the contract says which posts are listed and how often, not that they keep table order. The definition keeps the order.
- Store.FindUserByUsername: requires the store invariant (ids as keys, unique usernames) that the schema's constraints guarantee.
- Fresh ids: `register` and the new-post action require the id the database generates to be unused (and non-empty for users). These are the store's uuid guarantees, not checks the code makes.

## Findings

| source | as written | input that shows it | evidently intended | confidence | as-written member | corrected member |
|---|---|---|---|---|---|---|
| app/routes/profile/edit.tsx:63-98 | the action updates the profile whose id the form names, without reading the session or comparing owners | a POST with no cookie and `id` = another user's profile id and valid fields; that profile's email, name and phone are overwritten | only the logged-in owner may change a profile. The loader serves only the user's own profile, and the post page gates deletion on `user.id === post.userId` | medium; not executed | `ProfileEdit.Action`, demonstrated by `ProfileEdit.ForeignEditExample` | `ProfileEdit.OwnerAction` |
