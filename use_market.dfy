/** `useMarket`: buying, selling and creating tokens, each gated on the wallet
    and bracketed by the `isLoading` flag. */
module UseMarket {
  import opened Js
  import opened AlertContext
  import opened WalletContext
  import opened Guard

  const PurchaseFailed := "Transaction failed"
  const SaleFailed := "Transaction failed"
  const TokenCreated := "Token created successfully"
  const TokenCreationFailed := "Failed to create token"

  /** `amount` reaches the alert only through the template literal, so the
      model takes its text `String(amount)` as `amountText`. */
  function PurchasedMessage(amountText: string): string
  {
    "Successfully purchased " + amountText + " tokens"
  }

  function SoldMessage(amountText: string): string
  {
    "Successfully sold " + amountText + " tokens"
  }

  /** The amount's text can be read back from the purchase message, and from the sale message. */
  lemma MessagesDetermineAmount(a: string, b: string)
    ensures PurchasedMessage(a) == PurchasedMessage(b) ==> a == b
    ensures SoldMessage(a) == SoldMessage(b) ==> a == b
  {
    if PurchasedMessage(a) == PurchasedMessage(b) {
      CancelAffixes("Successfully purchased ", a, b, " tokens");
    }
    if SoldMessage(a) == SoldMessage(b) {
      CancelAffixes("Successfully sold ", a, b, " tokens");
    }
  }

  /** For a whole amount (or NaN) the message also gives back the number itself. */
  lemma WholeAmountsDetermined(a: JsInt, b: JsInt)
    requires PurchasedMessage(JsIntText(a)) == PurchasedMessage(JsIntText(b)) || SoldMessage(JsIntText(a)) == SoldMessage(JsIntText(b))
    ensures a == b
  {
    MessagesDetermineAmount(JsIntText(a), JsIntText(b));
    JsIntTextInjective(a, b);
  }

  /** A purchase and a sale never show the same success text, whatever the amounts. */
  lemma PurchaseAndSaleDiffer(a: string, b: string)
    ensures PurchasedMessage(a) != SoldMessage(b)
  {
    assert PurchasedMessage(a)[13] == 'p' && SoldMessage(b)[13] == 's';
  }

  class MarketHook {
    const wallet: Wallet
    var isLoading: bool

    ghost predicate Valid()
      reads this, wallet, wallet.alerts
    {
      wallet.Valid()
    }

    constructor (wallet: Wallet)
      requires wallet.Valid()
      ensures Valid()
      ensures this.wallet == wallet && !isLoading
    {
      this.wallet := wallet;
      isLoading := false;
    }

    /** `purchaseToken(tokenId, amount, price)`, with `String(amount)` as
        `amountText`: the token and the price play no part. */
    method PurchaseToken(tokenId: string, amountText: string, price: real, id: string, failed: bool) returns (ok: bool)
      requires Valid()
      modifies this, wallet.alerts
      ensures Valid()
      ensures var o := Guarded(wallet.isConnected, failed, PurchasedMessage(amountText), PurchaseFailed);
        ok == o.ok && wallet.alerts.alerts == old(wallet.alerts.alerts) + [Alert(id, o.kind, o.message)]
      ensures wallet.alerts.timers == old(wallet.alerts.timers) + multiset{id}
      ensures isLoading == (old(isLoading) && !wallet.isConnected)
    {
      if !wallet.isConnected {
        wallet.alerts.ShowAlert(id, Error, WalletNotConnected);
        return false;
      }
      isLoading := true;
      if !failed {
        wallet.alerts.ShowAlert(id, Success, PurchasedMessage(amountText));
        ok := true;
      } else {
        wallet.alerts.ShowAlert(id, Error, PurchaseFailed);
        ok := false;
      }
      isLoading := false;
    }

    /** `sellToken(tokenId, amount, price)`, with `String(amount)` as
        `amountText`: the token and the price play no part. */
    method SellToken(tokenId: string, amountText: string, price: real, id: string, failed: bool) returns (ok: bool)
      requires Valid()
      modifies this, wallet.alerts
      ensures Valid()
      ensures var o := Guarded(wallet.isConnected, failed, SoldMessage(amountText), SaleFailed);
        ok == o.ok && wallet.alerts.alerts == old(wallet.alerts.alerts) + [Alert(id, o.kind, o.message)]
      ensures wallet.alerts.timers == old(wallet.alerts.timers) + multiset{id}
      ensures isLoading == (old(isLoading) && !wallet.isConnected)
    {
      if !wallet.isConnected {
        wallet.alerts.ShowAlert(id, Error, WalletNotConnected);
        return false;
      }
      isLoading := true;
      if !failed {
        wallet.alerts.ShowAlert(id, Success, SoldMessage(amountText));
        ok := true;
      } else {
        wallet.alerts.ShowAlert(id, Error, SaleFailed);
        ok := false;
      }
      isLoading := false;
    }

    /** `createToken(metadata)`: the metadata plays no part. */
    method CreateToken(id: string, failed: bool) returns (ok: bool)
      requires Valid()
      modifies this, wallet.alerts
      ensures Valid()
      ensures var o := Guarded(wallet.isConnected, failed, TokenCreated, TokenCreationFailed);
        ok == o.ok && wallet.alerts.alerts == old(wallet.alerts.alerts) + [Alert(id, o.kind, o.message)]
      ensures wallet.alerts.timers == old(wallet.alerts.timers) + multiset{id}
      ensures isLoading == (old(isLoading) && !wallet.isConnected)
    {
      if !wallet.isConnected {
        wallet.alerts.ShowAlert(id, Error, WalletNotConnected);
        return false;
      }
      isLoading := true;
      if !failed {
        wallet.alerts.ShowAlert(id, Success, TokenCreated);
        ok := true;
      } else {
        wallet.alerts.ShowAlert(id, Error, TokenCreationFailed);
        ok := false;
      }
      isLoading := false;
    }
  }
}
