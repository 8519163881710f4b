/** `useContentActions`: a like flag and a like count that is recomputed from
    the count the caller passes in, not from its previous value. */
module UseContentActions {
  import opened AlertContext
  import ContentCard

  /** The count after a click, from the flag before it and the caller's count. */
  function LikesAfter(wasLiked: bool, initialLikes: int): (n: int)
    ensures n == initialLikes || n == initialLikes + 1
    ensures n == initialLikes + 1 <==> !wasLiked
  {
    if wasLiked then initialLikes else initialLikes + 1
  }

  class ContentActions {
    const alerts: AlertCenter
    var isLiked: bool
    var likesCount: int

    ghost predicate Valid()
      reads this, alerts
    {
      alerts.Valid()
    }

    constructor (alerts: AlertCenter)
      requires alerts.Valid()
      ensures Valid()
      ensures this.alerts == alerts && !isLiked && likesCount == 0
    {
      this.alerts := alerts;
      isLiked := false;
      likesCount := 0;
    }

    /** `handleLike(initialLikes)`. */
    method HandleLike(initialLikes: int, id: string)
      requires Valid()
      modifies this, alerts
      ensures Valid()
      ensures isLiked == !old(isLiked)
      ensures likesCount == LikesAfter(old(isLiked), initialLikes)
      ensures alerts.alerts == old(alerts.alerts) + [Alert(id, Success, ContentCard.LikeMessage(old(isLiked)))]
      ensures alerts.timers == old(alerts.timers) + multiset{id}
    {
      var wasLiked := isLiked;
      isLiked := !wasLiked;
      likesCount := if wasLiked then initialLikes else initialLikes + 1;
      alerts.ShowAlert(id, Success, if wasLiked then ContentCard.Removed else ContentCard.Added);
    }
  }
}
