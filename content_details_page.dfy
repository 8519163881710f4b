/** `ContentDetailsPage`: the lookup of the item and its creator, the player
    toggles, the buy and sell dialogs, the quantity input and the guarded
    transaction. */
module ContentDetailsPage {
  import opened Js
  import opened Catalog
  import opened AlertContext
  import opened WalletContext
  import opened Guard
  import opened UseTransaction
  import MarketCard

  /** The item with the route's id and the creator named by that item; the
      page shows "Content not found" when either is missing. */
  function Lookup(contents: seq<Content>, creators: seq<Creator>, id: string): (r: Option<(Content, Creator)>)
    ensures (forall i :: 0 <= i < |contents| ==> contents[i].id != id) ==> r.None?
    ensures forall k :: FirstContentAt(contents, id, k) ==>
      (r.Some? <==> exists j :: 0 <= j < |creators| && creators[j].id == contents[k].creatorId)
    ensures r.Some? ==> exists k, j :: (FirstContentAt(contents, id, k) && FirstCreatorAt(creators, contents[k].creatorId, j) &&
      r.value == (contents[k], creators[j]))
  {
    var content := FindContent(contents, id);
    if content.None? then None
    else
      var creator := FindCreator(creators, content.value.creatorId);
      if creator.None? then None else Some((content.value, creator.value))
  }

  /** `handlePlay` and `handleMute` name the state they leave, read before the flip. */
  function PlayMessage(wasPlaying: bool): string
  {
    if wasPlaying then "Paused" else "Playing"
  }

  function MuteMessage(wasMuted: bool): string
  {
    if wasMuted then "Unmuted" else "Muted"
  }

  /** Each message names the state the flag is in after the flip. */
  lemma MessagesNameNewState(wasPlaying: bool, wasMuted: bool)
    ensures PlayMessage(wasPlaying) == "Playing" <==> !wasPlaying
    ensures MuteMessage(wasMuted) == "Muted" <==> !wasMuted
  {
  }

  function PastTense(t: TxType): string
  {
    match t
    case Buy => "purchased"
    case Sell => "sold"
  }

  /** The success message of `handleTransaction`. */
  function TradeMessage(t: TxType, quantity: JsInt, itemType: string): string
  {
    MarketCard.UnitsMessage(PastTense(t), quantity, itemType)
  }

  /** A buy and a sell never show the same message, and the message gives back the quantity. */
  lemma TradeMessageDeterminesTrade(t: TxType, u: TxType, a: JsInt, b: JsInt, itemType: string)
    requires TradeMessage(t, a, itemType) == TradeMessage(u, b, itemType)
    ensures t == u && a == b
  {
    var m := TradeMessage(t, a, itemType);
    assert m[13] == PastTense(t)[0];
    assert m[13] == PastTense(u)[0];
    MarketCard.UnitsMessageDeterminesQuantity(PastTense(t), a, b, itemType);
  }

  class DetailsPage {
    const wallet: Wallet
    const content: Content
    var isPlaying: bool
    var isMuted: bool
    var showBuyModal: bool
    var showSellModal: bool
    var quantity: JsInt
    var isProcessing: bool

    ghost predicate Valid()
      reads this, wallet, wallet.alerts
    {
      wallet.Valid() && (quantity.Int? ==> quantity.value >= 1)
    }

    constructor (wallet: Wallet, content: Content)
      requires wallet.Valid()
      ensures Valid()
      ensures this.wallet == wallet && this.content == content
      ensures !isPlaying && !isMuted && !showBuyModal && !showSellModal && quantity == Int(1) && !isProcessing
    {
      this.wallet := wallet;
      this.content := content;
      isPlaying := false;
      isMuted := false;
      showBuyModal := false;
      showSellModal := false;
      quantity := Int(1);
      isProcessing := false;
    }

    /** `handlePlay`: no wallet gate, one success alert. */
    method HandlePlay(id: string)
      requires Valid()
      modifies this, wallet.alerts
      ensures Valid()
      ensures isPlaying == !old(isPlaying)
      ensures wallet.alerts.alerts == old(wallet.alerts.alerts) + [Alert(id, Success, PlayMessage(old(isPlaying)))]
      ensures wallet.alerts.timers == old(wallet.alerts.timers) + multiset{id}
      ensures isMuted == old(isMuted) && showBuyModal == old(showBuyModal) && showSellModal == old(showSellModal)
      ensures quantity == old(quantity) && isProcessing == old(isProcessing)
    {
      wallet.alerts.ShowAlert(id, Success, PlayMessage(isPlaying));
      isPlaying := !isPlaying;
    }

    /** `handleMute`: no wallet gate, one success alert. */
    method HandleMute(id: string)
      requires Valid()
      modifies this, wallet.alerts
      ensures Valid()
      ensures isMuted == !old(isMuted)
      ensures wallet.alerts.alerts == old(wallet.alerts.alerts) + [Alert(id, Success, MuteMessage(old(isMuted)))]
      ensures wallet.alerts.timers == old(wallet.alerts.timers) + multiset{id}
      ensures isPlaying == old(isPlaying) && showBuyModal == old(showBuyModal) && showSellModal == old(showSellModal)
      ensures quantity == old(quantity) && isProcessing == old(isProcessing)
    {
      wallet.alerts.ShowAlert(id, Success, MuteMessage(isMuted));
      isMuted := !isMuted;
    }

    /** The 'Buy' and 'Sell' buttons open their dialog without a wallet check. */
    method OpenModal(t: TxType)
      requires Valid()
      modifies this
      ensures Valid()
      ensures t == Buy ==> showBuyModal && showSellModal == old(showSellModal)
      ensures t == Sell ==> showSellModal && showBuyModal == old(showBuyModal)
      ensures isPlaying == old(isPlaying) && isMuted == old(isMuted) && quantity == old(quantity) && isProcessing == old(isProcessing)
    {
      if t == Buy {
        showBuyModal := true;
      } else {
        showSellModal := true;
      }
    }

    /** The backdrop and the close button close both dialogs. */
    method CloseModals()
      requires Valid()
      modifies this
      ensures Valid()
      ensures !showBuyModal && !showSellModal
      ensures isPlaying == old(isPlaying) && isMuted == old(isMuted) && quantity == old(quantity) && isProcessing == old(isProcessing)
    {
      showBuyModal := false;
      showSellModal := false;
    }

    /** The quantity input, given what `parseInt` made of its text. */
    method SetQuantity(parsed: JsInt)
      requires Valid()
      modifies this
      ensures Valid()
      ensures quantity == AtLeastOne(parsed)
      ensures isPlaying == old(isPlaying) && isMuted == old(isMuted)
      ensures showBuyModal == old(showBuyModal) && showSellModal == old(showSellModal) && isProcessing == old(isProcessing)
    {
      quantity := AtLeastOne(parsed);
    }

    /** `handleTransaction(type)`. Disconnected: the wallet error and the
        synchronous start of `connect()`, with the flag and the dialogs
        untouched. Connected: one settlement alert, on success only the dialog
        of that side closes, and the flag ends lowered. */
    method HandleTransaction(t: TxType, id: string, failed: bool)
      requires Valid()
      modifies this, wallet, wallet.alerts
      ensures Valid()
      ensures var o := Guarded(old(wallet.isConnected), failed, TradeMessage(t, quantity, content.kind), UseTransaction.TransactionFailed);
        wallet.alerts.alerts == old(wallet.alerts.alerts) + [Alert(id, o.kind, o.message)]
      ensures wallet.alerts.timers == old(wallet.alerts.timers) + multiset{id}
      ensures !old(wallet.isConnected) ==>
        && wallet.Fields() == old(wallet.Fields()).(isLoading := true)
        && isProcessing == old(isProcessing) && showBuyModal == old(showBuyModal) && showSellModal == old(showSellModal)
      ensures old(wallet.isConnected) ==> wallet.Fields() == old(wallet.Fields()) && !isProcessing
      ensures old(wallet.isConnected) && !failed ==>
        && (t == Buy ==> !showBuyModal && showSellModal == old(showSellModal))
        && (t == Sell ==> !showSellModal && showBuyModal == old(showBuyModal))
      ensures old(wallet.isConnected) && failed ==> showBuyModal == old(showBuyModal) && showSellModal == old(showSellModal)
      ensures isPlaying == old(isPlaying) && isMuted == old(isMuted) && quantity == old(quantity)
    {
      if !wallet.isConnected {
        wallet.alerts.ShowAlert(id, Error, WalletNotConnected);
        wallet.BeginConnect();
        return;
      }
      isProcessing := true;
      if !failed {
        wallet.alerts.ShowAlert(id, Success, TradeMessage(t, quantity, content.kind));
        if t == Buy {
          showBuyModal := false;
        } else {
          showSellModal := false;
        }
      } else {
        wallet.alerts.ShowAlert(id, Error, UseTransaction.TransactionFailed);
      }
      isProcessing := false;
    }
  }
}
