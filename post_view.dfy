/** The post view component. */
module PostView {
  import opened Wrappers
  import opened Store

  /** Whether the delete button is drawn: only for a present user who owns
      the post. The `disable` flag changes the styling alone; the title and
      body play no part. The new-post preview passes no user, so it never
      shows the button. */
  predicate ShowsDelete(post: Post, user: Option<User>, disable: bool)
    ensures ShowsDelete(post, user, disable) <==> user.Some? && user.value.id == post.userId
  {
    match user
    case None => false
    case Some(u) => u.id == post.userId
  }
}
