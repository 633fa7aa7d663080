/** The profile view component. */
module ProfileView {
  import opened Wrappers
  import opened Store

  /** Whether the edit link is drawn: when the caller's id equals the
      profile's owner. The caller's id defaults to `undefined`, which equals
      no owner id; the name, email, phone and image play no part. */
  predicate ShowsEditLink(userId: Option<string>, profile: Profile)
    ensures ShowsEditLink(userId, profile) <==> userId == Some(profile.userId)
  {
    match userId
    case None => false
    case Some(id) => id == profile.userId
  }
}
