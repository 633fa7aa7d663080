/** The `/profile` route: the current user's profile and a timeline of their
    posts. */
module ProfileIndex {
  import opened Wrappers
  import opened Store
  import opened Http
  import opened SessionServer
  import opened ProfileView

  /** What the loader hands to the page: the profile, its owner's posts and
      the id of the current user. */
  datatype ProfilePage = ProfilePage(profile: Profile, posts: seq<Post>, userId: string)

  /** The route's `loader`: `null` for visitors who are not logged in, a
      "Server Error" when the current user has no profile, and otherwise the
      user's first profile with the posts of its owner. */
  function Loader(db: Db, cookie: Option<Claims>, lookupFails: bool): (r: Outcome<ProfilePage>)
    reads db
    ensures GetUser(db.users, cookie, lookupFails).None? ==> r == Respond(NoContent)
    ensures GetUser(db.users, cookie, lookupFails).Some? ==>
              var user := GetUser(db.users, cookie, lookupFails).value;
              && (r == Respond(ServerError("Server Error")) <==> forall p :: p in db.profiles ==> p.userId != user.id)
              && (r.Data? <==> exists p :: p in db.profiles && p.userId == user.id)
              && (r.Data? ==> && r.value.userId == user.id
                              && r.value.profile in db.profiles && r.value.profile.userId == user.id
                              && forall p :: p in r.value.posts <==> p in db.posts && p.userId == user.id)
  {
    match GetUser(db.users, cookie, lookupFails)
    case None => Respond(NoContent)
    case Some(user) =>
      match FirstProfileOf(db.profiles, user.id)
      case None => Respond(ServerError("Server Error"))
      case Some(profile) => Data(ProfilePage(profile, PostsOf(db.posts, profile.userId), user.id))
  }

  /** One entry of the timeline; the date fields are left out. */
  datatype TimelineItem = TimelineItem(cardTitle: string, cardDetailedText: string)

  /** The posts mapped to timeline entries, one per post and in the same
      order. */
  function Timeline(posts: seq<Post>): (items: seq<TimelineItem>)
    ensures |items| == |posts|
    ensures forall i :: 0 <= i < |posts| ==>
              items[i].cardTitle == posts[i].title + " " && items[i].cardDetailedText == posts[i].body
  {
    if posts == [] then []
    else [TimelineItem(posts[0].title + " ", posts[0].body)] + Timeline(posts[1..])
  }

  /** The timeline is drawn only when there is at least one post. */
  predicate ShowsTimeline(page: ProfilePage)
    ensures ShowsTimeline(page) <==> page.posts != []
  {
    |Timeline(page.posts)| > 0
  }

  /** On this page the owner always sees the edit link: the profile shown is
      looked up by the current user's id, and that id is what the page hands
      to the profile view. */
  lemma OwnerSeesEditLink(db: Db, cookie: Option<Claims>, lookupFails: bool)
    requires Loader(db, cookie, lookupFails).Data?
    ensures var page := Loader(db, cookie, lookupFails).value;
            ShowsEditLink(Some(page.userId), page.profile)
  {
  }
}
