/** `CreatorPage`: the creator's own content, the subscribe button, and the
    token dialog whose trade goes through `useTransaction`. */
module CreatorPage {
  import opened Js
  import opened Seqs
  import opened Catalog
  import opened AlertContext
  import opened WalletContext
  import opened Guard
  import opened UseTransaction

  function ByCreator(id: string): Content -> bool
  {
    (c: Content) => c.creatorId == id
  }

  /** `creatorContent`. */
  function CreatorContent(contents: seq<Content>, id: string): seq<Content>
  {
    Filter(contents, ByCreator(id))
  }

  /** The page lists exactly the items whose `creatorId` is the route's id, each
      as often as the catalogue holds it, and keeps the catalogue's order
      across any split of the catalogue. */
  lemma CreatorContentExact(contents: seq<Content>, more: seq<Content>, id: string)
    ensures forall c :: c in CreatorContent(contents, id) <==> c in contents && c.creatorId == id
    ensures forall c :: (multiset(CreatorContent(contents, id))[c] == if c.creatorId == id then multiset(contents)[c] else 0)
    ensures CreatorContent(contents + more, id) == CreatorContent(contents, id) + CreatorContent(more, id)
  {
    FilterMultiset(contents, ByCreator(id));
    FilterConcat(contents, more, ByCreator(id));
  }

  const Subscribed := "Subscribed successfully"
  const Unsubscribed := "Unsubscribed successfully"

  /** The message is read from the state before the flip. */
  function SubscribeMessage(wasSubscribed: bool): (m: string)
    ensures m == Subscribed <==> !wasSubscribed
  {
    if wasSubscribed then Unsubscribed else Subscribed
  }

  /** The title `handleTokenTransaction` passes: the upper-cased username and ' tokens'. */
  function TokenTitle(username: string): string
  {
    Upper(username) + " tokens"
  }

  class CreatorView {
    const hook: TransactionHook
    const creator: Creator
    var isSubscribed: bool
    var showTokenModal: bool
    var tokenAmount: JsInt

    ghost predicate Valid()
      reads this, hook, hook.wallet, hook.wallet.alerts
    {
      hook.Valid() && (tokenAmount.Int? ==> tokenAmount.value >= 1)
    }

    constructor (hook: TransactionHook, creator: Creator)
      requires hook.Valid()
      ensures Valid()
      ensures this.hook == hook && this.creator == creator
      ensures !isSubscribed && !showTokenModal && tokenAmount == Int(1)
    {
      this.hook := hook;
      this.creator := creator;
      isSubscribed := false;
      showTokenModal := false;
      tokenAmount := Int(1);
    }

    /** `handleSubscribe`. Disconnected: the wallet error and the synchronous
        start of `connect()`, with the subscription untouched. Connected: the
        subscription flips and its message is shown. */
    method HandleSubscribe(id: string)
      requires Valid()
      modifies this, hook.wallet, hook.wallet.alerts
      ensures Valid()
      ensures hook.wallet.alerts.timers == old(hook.wallet.alerts.timers) + multiset{id}
      ensures !old(hook.wallet.isConnected) ==>
        && isSubscribed == old(isSubscribed)
        && hook.wallet.Fields() == old(hook.wallet.Fields()).(isLoading := true)
        && hook.wallet.alerts.alerts == old(hook.wallet.alerts.alerts) + [Alert(id, Error, WalletNotConnected)]
      ensures old(hook.wallet.isConnected) ==>
        && isSubscribed == !old(isSubscribed)
        && hook.wallet.Fields() == old(hook.wallet.Fields())
        && hook.wallet.alerts.alerts == old(hook.wallet.alerts.alerts) + [Alert(id, Success, SubscribeMessage(old(isSubscribed)))]
      ensures showTokenModal == old(showTokenModal) && tokenAmount == old(tokenAmount)
    {
      if !hook.wallet.isConnected {
        hook.wallet.alerts.ShowAlert(id, Error, WalletNotConnected);
        hook.wallet.BeginConnect();
        return;
      }
      hook.wallet.alerts.ShowAlert(id, Success, SubscribeMessage(isSubscribed));
      isSubscribed := !isSubscribed;
    }

    /** The 'Buy Tokens' and 'Sell Tokens' buttons are disabled while a trade is processing. */
    method OpenTokenModal()
      requires Valid()
      modifies this
      ensures Valid()
      ensures showTokenModal == (old(showTokenModal) || !hook.isProcessing)
      ensures isSubscribed == old(isSubscribed) && tokenAmount == old(tokenAmount)
    {
      if !hook.isProcessing {
        showTokenModal := true;
      }
    }

    /** The dialog's backdrop and close button. */
    method CloseTokenModal()
      requires Valid()
      modifies this
      ensures Valid()
      ensures !showTokenModal
      ensures isSubscribed == old(isSubscribed) && tokenAmount == old(tokenAmount)
    {
      showTokenModal := false;
    }

    /** The amount input, given what `parseInt` made of its text. */
    method SetTokenAmount(parsed: JsInt)
      requires Valid()
      modifies this
      ensures Valid()
      ensures tokenAmount == AtLeastOne(parsed)
      ensures isSubscribed == old(isSubscribed) && showTokenModal == old(showTokenModal)
    {
      tokenAmount := AtLeastOne(parsed);
    }

    /** `handleTokenTransaction(type)`: a trade of `tokenAmount` at the creator's
        token price through the hook; when it succeeds the dialog closes and
        the amount goes back to 1, otherwise both stay. */
    method HandleTokenTransaction(t: TxType, id: string, failed: bool)
      requires Valid()
      modifies this, hook, hook.wallet, hook.wallet.alerts
      ensures Valid()
      ensures var o := Guarded(old(hook.wallet.isConnected), failed,
          SuccessMessage(t, old(tokenAmount), creator.tokenPrice, TokenTitle(creator.username)), UseTransaction.TransactionFailed);
        && hook.wallet.alerts.alerts == old(hook.wallet.alerts.alerts) + [Alert(id, o.kind, o.message)]
        && (o.ok ==> !showTokenModal && tokenAmount == Int(1))
        && (!o.ok ==> showTokenModal == old(showTokenModal) && tokenAmount == old(tokenAmount))
      ensures hook.wallet.alerts.timers == old(hook.wallet.alerts.timers) + multiset{id}
      ensures !old(hook.wallet.isConnected) ==> hook.wallet.Fields() == old(hook.wallet.Fields()).(isLoading := true)
      ensures !old(hook.wallet.isConnected) ==> hook.isProcessing == old(hook.isProcessing)
      ensures old(hook.wallet.isConnected) ==> hook.wallet.Fields() == old(hook.wallet.Fields()) && !hook.isProcessing
      ensures isSubscribed == old(isSubscribed)
    {
      var success := hook.ExecuteTransaction(t, tokenAmount, creator.tokenPrice, TokenTitle(creator.username), id, failed);
      if success {
        showTokenModal := false;
        tokenAmount := Int(1);
      }
    }
  }
}
