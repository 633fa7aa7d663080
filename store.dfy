/** The database the routes talk to: the user, post and profile tables. The
    query language is not modelled; each query the core issues is a function
    over a table, and each write a method of `Db`. */
module Store {
  import opened Wrappers

  /** A row of the user table. There is no plaintext password field. */
  datatype User = User(id: string, username: string, passwordHash: string)

  /** A row of the post table. */
  datatype Post = Post(id: string, userId: string, title: string, body: string, createdAt: int)

  /** A row of the profile table; `userId` refers to its owner. */
  datatype Profile = Profile(id: string, userId: string, name: string, email: string,
                             phoneNumber: string, profileImageUrl: string)

  /** The user table, keyed by id. */
  type Users = map<string, User>

  /** Every user is stored under its own id, and ids are non-empty (the store
      generates uuids). */
  ghost predicate WellKeyed(users: Users)
  {
    forall id :: id in users ==> users[id].id == id && id != ""
  }

  /** `username` is a unique column. */
  ghost predicate UniqueUsernames(users: Users)
  {
    forall a, b :: a in users && b in users && users[a].username == users[b].username ==> a == b
  }

  ghost predicate UsersValid(users: Users)
  {
    WellKeyed(users) && UniqueUsernames(users)
  }

  /** An id the store may give to a new user. */
  ghost predicate FreshUserId(users: Users, id: string)
  {
    id != "" && id !in users
  }

  ghost predicate UniquePostIds(posts: seq<Post>)
  {
    forall i, j :: 0 <= i < j < |posts| ==> posts[i].id != posts[j].id
  }

  /** An id the store may give to a new post. */
  ghost predicate FreshPostId(posts: seq<Post>, id: string)
  {
    forall i :: 0 <= i < |posts| ==> posts[i].id != id
  }

  ghost predicate UniqueProfileIds(profiles: seq<Profile>)
  {
    forall i, j :: 0 <= i < j < |profiles| ==> profiles[i].id != profiles[j].id
  }

  /** `db.user.findUnique({ where: { username } })` (and `findFirst`, which
      answers the same on a unique column). */
  function FindUserByUsername(users: Users, username: string): (r: Option<User>)
    requires UsersValid(users)
    ensures r.Some? <==> exists id :: id in users && users[id].username == username
    ensures r.Some? ==> r.value.id in users && users[r.value.id] == r.value && r.value.username == username
  {
    if exists id :: id in users && users[id].username == username then
      var id :| id in users && users[id].username == username;
      Some(users[id])
    else
      None
  }

  /** `db.user.findUnique({ where: { id } })`. */
  function FindUserById(users: Users, id: string): (r: Option<User>)
    ensures r.Some? <==> id in users
    ensures r.Some? ==> r.value == users[id]
  {
    if id in users then Some(users[id]) else None
  }

  /** No profile before index `i` belongs to `userId`. */
  ghost predicate NoneOwnedBefore(profiles: seq<Profile>, i: int, userId: string)
    requires 0 <= i <= |profiles|
  {
    forall j :: 0 <= j < i ==> profiles[j].userId != userId
  }

  /** `db.profile.findFirst({ where: { userId } })`: the first profile in table
      order that belongs to `userId`. */
  function FirstProfileOf(profiles: seq<Profile>, userId: string): (r: Option<Profile>)
    ensures r.None? <==> NoneOwnedBefore(profiles, |profiles|, userId)
    ensures r.Some? ==> exists i :: 0 <= i < |profiles| && profiles[i] == r.value
                                    && r.value.userId == userId && NoneOwnedBefore(profiles, i, userId)
  {
    if profiles == [] then None
    else if profiles[0].userId == userId then
      assert NoneOwnedBefore(profiles, 0, userId);
      Some(profiles[0])
    else
      var r := FirstProfileOf(profiles[1..], userId);
      assert forall j :: 1 <= j <= |profiles| ==>
        (NoneOwnedBefore(profiles, j, userId) <==> NoneOwnedBefore(profiles[1..], j - 1, userId));
      assert r.Some? ==> exists i :: 0 <= i < |profiles| && profiles[i] == r.value
                                     && NoneOwnedBefore(profiles, i, userId) by {
        if r.Some? {
          var i :| 0 <= i < |profiles[1..]| && profiles[1..][i] == r.value
                   && r.value.userId == userId && NoneOwnedBefore(profiles[1..], i, userId);
          assert profiles[i + 1] == r.value && NoneOwnedBefore(profiles, i + 1, userId);
        }
      }
      r
  }

  /** The posts of `userId`, in table order: the `user.posts` relation. */
  function PostsOf(posts: seq<Post>, userId: string): (r: seq<Post>)
    ensures forall p :: p in r <==> p in posts && p.userId == userId
    ensures forall p :: multiset(r)[p] == if p.userId == userId then multiset(posts)[p] else 0
    ensures |r| <= |posts|
  {
    if posts == [] then []
    else
      var rest := PostsOf(posts[1..], userId);
      assert posts == [posts[0]] + posts[1..];
      assert multiset(posts) == multiset{posts[0]} + multiset(posts[1..]);
      if posts[0].userId == userId then
        assert multiset([posts[0]] + rest) == multiset{posts[0]} + multiset(rest);
        [posts[0]] + rest
      else
        rest
  }

  /** The contact fields an edit writes into a profile. */
  function WithContact(p: Profile, email: string, name: string, phoneNumber: string): (q: Profile)
    ensures q.id == p.id && q.userId == p.userId && q.profileImageUrl == p.profileImageUrl
  {
    p.(email := email, name := name, phoneNumber := phoneNumber)
  }

  /** `db.profile.update({ data: { email, name, phoneNumber }, where: { id } })`
      applied to the table. */
  function UpdateContact(profiles: seq<Profile>, id: string, email: string, name: string,
                         phoneNumber: string): (r: seq<Profile>)
    ensures |r| == |profiles|
    ensures forall i :: 0 <= i < |profiles| && profiles[i].id != id ==> r[i] == profiles[i]
    ensures forall i :: 0 <= i < |profiles| && profiles[i].id == id ==>
              r[i].id == id && r[i].userId == profiles[i].userId
              && r[i].profileImageUrl == profiles[i].profileImageUrl
              && r[i].email == email && r[i].name == name && r[i].phoneNumber == phoneNumber
  {
    if profiles == [] then []
    else
      var head := if profiles[0].id == id then WithContact(profiles[0], email, name, phoneNumber)
                  else profiles[0];
      var rest := UpdateContact(profiles[1..], id, email, name, phoneNumber);
      assert forall i :: 1 <= i < |profiles| ==> ([head] + rest)[i] == rest[i - 1];
      [head] + rest
  }

  /** Some profile has id `id`; otherwise `update` raises an error. */
  predicate HasProfile(profiles: seq<Profile>, id: string)
  {
    exists i :: 0 <= i < |profiles| && profiles[i].id == id
  }

  /** The database. Its tables are updated in place by the three writes the
      core issues. */
  class Db {
    var users: Users
    var posts: seq<Post>
    var profiles: seq<Profile>

    ghost predicate Valid()
      reads this
    {
      UsersValid(users) && UniquePostIds(posts) && UniqueProfileIds(profiles)
    }

    constructor ()
      ensures Valid()
      ensures users == map[] && posts == [] && profiles == []
    {
      users, posts, profiles := map[], [], [];
    }

    /** `db.user.create({ data: { username, passwordHash } })`. */
    method CreateUser(id: string, username: string, passwordHash: string) returns (u: User)
      requires Valid()
      requires FreshUserId(users, id) && FindUserByUsername(users, username).None?
      modifies this
      ensures Valid()
      ensures u == User(id, username, passwordHash) && users == old(users)[id := u]
      ensures posts == old(posts) && profiles == old(profiles)
    {
      u := User(id, username, passwordHash);
      users := users[id := u];
    }

    /** `db.post.create({ data: { title, body, userId } })`, stamped with the
        store's clock. */
    method CreatePost(id: string, userId: string, title: string, body: string, createdAt: int)
      returns (p: Post)
      requires Valid() && FreshPostId(posts, id)
      modifies this
      ensures Valid()
      ensures p == Post(id, userId, title, body, createdAt) && posts == old(posts) + [p]
      ensures users == old(users) && profiles == old(profiles)
    {
      p := Post(id, userId, title, body, createdAt);
      posts := posts + [p];
    }

    /** `db.profile.update` by id; `found` is false when the store raises its
        record-not-found error, and then nothing changes. */
    method UpdateProfile(id: string, email: string, name: string, phoneNumber: string)
      returns (found: bool)
      requires Valid()
      modifies this
      ensures Valid()
      ensures found == HasProfile(old(profiles), id)
      ensures profiles == if found then UpdateContact(old(profiles), id, email, name, phoneNumber)
                          else old(profiles)
      ensures users == old(users) && posts == old(posts)
    {
      found := HasProfile(profiles, id);
      if found {
        profiles := UpdateContact(profiles, id, email, name, phoneNumber);
      }
    }
  }
}
