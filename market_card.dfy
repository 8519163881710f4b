/** `MarketCard`: the like button, the buy button, the quantity input and the
    purchase of a market item, all gated on the wallet. */
module MarketCard {
  import opened Js
  import opened AlertContext
  import opened WalletContext
  import opened ContentCard

  const TransactionFailed := "Transaction failed. Please try again."

  /** `Successfully ${verb} ${quantity} ${type.toUpperCase()}(s)`. */
  function UnitsMessage(verb: string, quantity: JsInt, itemType: string): string
  {
    UnitsPrefix(verb) + JsIntText(quantity) + UnitsSuffix(itemType)
  }

  function UnitsPrefix(verb: string): string
  {
    "Successfully " + verb + " "
  }

  function UnitsSuffix(itemType: string): string
  {
    " " + Upper(itemType) + "(s)"
  }

  /** The quantity can be read back from the message. */
  lemma UnitsMessageDeterminesQuantity(verb: string, a: JsInt, b: JsInt, itemType: string)
    requires UnitsMessage(verb, a, itemType) == UnitsMessage(verb, b, itemType)
    ensures a == b
  {
    CancelAffixes(UnitsPrefix(verb), JsIntText(a), JsIntText(b), UnitsSuffix(itemType));
    JsIntTextInjective(a, b);
  }

  class Item {
    const wallet: Wallet
    /** `item.type` and `item.likes`. */
    const itemType: string
    const baseLikes: int
    var liked: bool
    var likes: int
    var showBuyModal: bool
    var quantity: JsInt
    var isProcessing: bool

    ghost predicate Valid()
      reads this, wallet, wallet.alerts
    {
      && wallet.Valid()
      && LikedCount(baseLikes, liked, likes)
      && (quantity.Int? ==> quantity.value >= 1)
    }

    constructor (wallet: Wallet, itemType: string, itemLikes: int)
      requires wallet.Valid()
      ensures Valid()
      ensures this.wallet == wallet && this.itemType == itemType && baseLikes == itemLikes
      ensures !liked && likes == itemLikes && !showBuyModal && quantity == Int(1) && !isProcessing
    {
      this.wallet := wallet;
      this.itemType := itemType;
      baseLikes := itemLikes;
      liked := false;
      likes := itemLikes;
      showBuyModal := false;
      quantity := Int(1);
      isProcessing := false;
    }

    /** `handleLike`: disconnected, the wallet error and nothing else; connected,
        the like toggles as on a content card. */
    method HandleLike(id: string)
      requires Valid()
      modifies this, wallet.alerts
      ensures Valid()
      ensures !wallet.isConnected ==>
        && liked == old(liked) && likes == old(likes)
        && wallet.alerts.alerts == old(wallet.alerts.alerts) + [Alert(id, Error, WalletNotConnected)]
      ensures wallet.isConnected ==>
        && (liked, likes) == ToggleLike(old(liked), old(likes))
        && wallet.alerts.alerts == old(wallet.alerts.alerts) + [Alert(id, Success, LikeMessage(old(liked)))]
      ensures wallet.alerts.timers == old(wallet.alerts.timers) + multiset{id}
      ensures showBuyModal == old(showBuyModal) && quantity == old(quantity) && isProcessing == old(isProcessing)
    {
      if !wallet.isConnected {
        wallet.alerts.ShowAlert(id, Error, WalletNotConnected);
        return;
      }
      if liked {
        likes := likes - 1;
        wallet.alerts.ShowAlert(id, Success, Removed);
      } else {
        likes := likes + 1;
        wallet.alerts.ShowAlert(id, Success, Added);
      }
      liked := !liked;
    }

    /** The buy button: opens the purchase dialog only with a connected wallet. */
    method BuyButton(id: string)
      requires Valid()
      modifies this, wallet.alerts
      ensures Valid()
      ensures !wallet.isConnected ==>
        && showBuyModal == old(showBuyModal)
        && wallet.alerts.alerts == old(wallet.alerts.alerts) + [Alert(id, Error, WalletNotConnected)]
        && wallet.alerts.timers == old(wallet.alerts.timers) + multiset{id}
      ensures wallet.isConnected ==>
        showBuyModal && wallet.alerts.alerts == old(wallet.alerts.alerts) && wallet.alerts.timers == old(wallet.alerts.timers)
      ensures liked == old(liked) && likes == old(likes) && quantity == old(quantity) && isProcessing == old(isProcessing)
    {
      if !wallet.isConnected {
        wallet.alerts.ShowAlert(id, Error, WalletNotConnected);
        return;
      }
      showBuyModal := true;
    }

    /** The quantity input, given what `parseInt` made of its text. */
    method SetQuantity(parsed: JsInt)
      requires Valid()
      modifies this
      ensures Valid()
      ensures quantity == AtLeastOne(parsed)
      ensures liked == old(liked) && likes == old(likes) && showBuyModal == old(showBuyModal) && isProcessing == old(isProcessing)
    {
      quantity := AtLeastOne(parsed);
    }

    /** The dialog's backdrop and close button. */
    method CloseModal()
      requires Valid()
      modifies this
      ensures Valid()
      ensures !showBuyModal
      ensures liked == old(liked) && likes == old(likes) && quantity == old(quantity) && isProcessing == old(isProcessing)
    {
      showBuyModal := false;
    }

    /** `handlePurchase`: disconnected, the wallet error with the flag and the
        dialog untouched; connected, the purchase alert and the dialog closed,
        or the failure alert with the dialog open; the flag ends lowered. */
    method HandlePurchase(id: string, failed: bool)
      requires Valid()
      modifies this, wallet.alerts
      ensures Valid()
      ensures wallet.alerts.timers == old(wallet.alerts.timers) + multiset{id}
      ensures !wallet.isConnected ==>
        && showBuyModal == old(showBuyModal) && isProcessing == old(isProcessing)
        && wallet.alerts.alerts == old(wallet.alerts.alerts) + [Alert(id, Error, WalletNotConnected)]
      ensures wallet.isConnected == old(wallet.isConnected)
      ensures wallet.isConnected && !failed ==>
        && !showBuyModal && !isProcessing
        && wallet.alerts.alerts == old(wallet.alerts.alerts) + [Alert(id, Success, UnitsMessage("purchased", quantity, itemType))]
      ensures wallet.isConnected && failed ==>
        && showBuyModal == old(showBuyModal) && !isProcessing
        && wallet.alerts.alerts == old(wallet.alerts.alerts) + [Alert(id, Error, TransactionFailed)]
      ensures liked == old(liked) && likes == old(likes) && quantity == old(quantity)
    {
      if !wallet.isConnected {
        wallet.alerts.ShowAlert(id, Error, WalletNotConnected);
        return;
      }
      isProcessing := true;
      if !failed {
        wallet.alerts.ShowAlert(id, Success, UnitsMessage("purchased", quantity, itemType));
        showBuyModal := false;
      } else {
        wallet.alerts.ShowAlert(id, Error, TransactionFailed);
      }
      isProcessing := false;
    }
  }
}
