/** `ContentCard`: the like button, which adjusts the card's own like count. */
module ContentCard {
  import opened AlertContext

  const Removed := "Removed from favorites"
  const Added := "Added to favorites"

  /** The like state after one click: un-liking takes one like away, liking adds one. */
  function ToggleLike(liked: bool, likes: int): (r: (bool, int))
    ensures r.0 == !liked
    ensures r.1 - likes == (if liked then -1 else 1)
  {
    if liked then (false, likes - 1) else (true, likes + 1)
  }

  /** The alert of a like click, chosen by the state before the click. */
  function LikeMessage(liked: bool): string
  {
    if liked then Removed else Added
  }

  /** Two clicks in a row restore both the flag and the count. */
  lemma ToggleTwice(liked: bool, likes: int)
    ensures var r := ToggleLike(liked, likes); ToggleLike(r.0, r.1) == (liked, likes)
  {
  }

  /** A like count that is the item's own count `base`, plus one while liked. */
  predicate LikedCount(base: int, liked: bool, likes: int)
  {
    likes == base + (if liked then 1 else 0)
  }

  /** A click keeps the count the item's own count, plus one while liked. */
  lemma ToggleKeepsCount(base: int, liked: bool, likes: int)
    requires LikedCount(base, liked, likes)
    ensures var r := ToggleLike(liked, likes); LikedCount(base, r.0, r.1)
  {
  }

  class Card {
    const alerts: AlertCenter
    /** `content.likes`, the count the card starts from. */
    const baseLikes: int
    var liked: bool
    var likes: int

    ghost predicate Valid()
      reads this, alerts
    {
      alerts.Valid() && LikedCount(baseLikes, liked, likes)
    }

    constructor (alerts: AlertCenter, contentLikes: int)
      requires alerts.Valid()
      ensures Valid()
      ensures this.alerts == alerts && baseLikes == contentLikes
      ensures !liked && likes == contentLikes
    {
      this.alerts := alerts;
      baseLikes := contentLikes;
      liked := false;
      likes := contentLikes;
    }

    /** `handleLike`: no wallet gate, one success alert per click. */
    method HandleLike(id: string)
      requires Valid()
      modifies this, alerts
      ensures Valid()
      ensures (liked, likes) == ToggleLike(old(liked), old(likes))
      ensures alerts.alerts == old(alerts.alerts) + [Alert(id, Success, LikeMessage(old(liked)))]
      ensures alerts.timers == old(alerts.timers) + multiset{id}
    {
      if liked {
        likes := likes - 1;
        alerts.ShowAlert(id, Success, Removed);
      } else {
        likes := likes + 1;
        alerts.ShowAlert(id, Success, Added);
      }
      liked := !liked;
    }
  }
}
