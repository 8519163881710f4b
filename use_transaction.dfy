/** `useTransaction`: a buy or sell of `quantity` units at `price` ETH each,
    gated on the wallet. */
module UseTransaction {
  import opened Js
  import opened AlertContext
  import opened WalletContext
  import opened Guard

  datatype TxType = Buy | Sell

  const TransactionFailed := "Transaction failed. Please try again."

  function Verb(t: TxType): string
  {
    match t
    case Buy => "Bought"
    case Sell => "Sold"
  }

  /** `quantity * price`: a NaN quantity gives NaN. */
  function Total(quantity: JsInt, price: real): (r: JsNumber)
    ensures quantity.Int? ==> r == Num((quantity.value as real) * price)
    ensures quantity.IntNaN? <==> r.NaN?
  {
    if quantity.IntNaN? then NaN else Num((quantity.value as real) * price)
  }

  /** `${action} ${quantity} ${title} for ${totalPrice.toFixed(3)} ETH`. */
  function SuccessMessage(t: TxType, quantity: JsInt, price: real, title: string): string
  {
    Verb(t) + " " + Details(quantity, price, title)
  }

  function Details(quantity: JsInt, price: real, title: string): string
  {
    JsIntText(quantity) + " " + title + " for " + Fixed3(Total(quantity, price)) + " ETH"
  }

  /** The message starts with 'Bought ' exactly for a buy and with 'Sold ' exactly for a sell. */
  lemma SuccessMessageVerb(t: TxType, quantity: JsInt, price: real, title: string)
    ensures var m := SuccessMessage(t, quantity, price, title);
      (|m| >= 7 && m[..7] == "Bought " <==> t == Buy) && (|m| >= 5 && m[..5] == "Sold " <==> t == Sell)
  {
    var m := SuccessMessage(t, quantity, price, title);
    if t == Buy {
      assert m[..7] == "Bought ";
      assert m[3] == 'g' && m[..5][3] == m[3];
    } else {
      assert m[..5] == "Sold ";
      assert m[0] == 'S' && (|m| >= 7 ==> m[..7][0] == m[0]);
    }
  }

  /** For a whole quantity and a non-negative price the message is made of the
      quantity's digits, the title and the total rounded to thousandths, which
      reads back as `quantity * price` to three decimals. */
  lemma DetailsTotal(q: nat, price: real, title: string)
    requires price >= 0.0
    ensures var total := Fixed3NonNegative(q as real * price);
      && Details(Int(q), price, title) == NatText(q) + " " + title + " for " + total + " ETH"
      && ParseFixed3(total) == Some(Thousandths(q as real * price))
  {
    var x := q as real * price;
    assert x >= 0.0 by { NonNegativeProduct(q as real, price); }
    assert Total(Int(q), price) == Num(x);
    assert Fixed3(Num(x)) == Fixed3NonNegative(x);
    assert JsIntText(Int(q)) == NatText(q);
    Fixed3RoundTrip(x);
  }

  lemma NonNegativeProduct(a: real, b: real)
    requires a >= 0.0 && b >= 0.0
    ensures a * b >= 0.0
  {
  }

  /** Two units at 1.25 ETH. */
  lemma BuyScenario()
    ensures SuccessMessage(Buy, Int(2), 1.25, "Widget") == "Bought 2 Widget for 2.500 ETH"
  {
    TotalText();
    assert JsIntText(Int(2)) == "2";
  }

  /** The total of two units at 1.25 ETH, as toFixed(3) prints it. */
  lemma TotalText()
    ensures Fixed3(Total(Int(2), 1.25)) == "2.500"
  {
    assert Total(Int(2), 1.25) == Num(2.5);
    assert Thousandths(2.5) == 2500;
    assert Pad3(500) == "500" && NatText(2) == "2";
  }

  /** The hook: the `isProcessing` flag over the wallet and its alert queue. */
  class TransactionHook {
    const wallet: Wallet
    var isProcessing: bool

    ghost predicate Valid()
      reads this, wallet, wallet.alerts
    {
      wallet.Valid()
    }

    constructor (wallet: Wallet)
      requires wallet.Valid()
      ensures Valid()
      ensures this.wallet == wallet && !isProcessing
    {
      this.wallet := wallet;
      isProcessing := false;
    }

    /** `executeTransaction(type, { quantity, price, title })`, with the alert id
        as `id` and `failed` selecting the catch branch. Disconnected: the
        wallet error, the synchronous start of `connect()`, false, and the
        flag untouched. Connected: one settlement alert, true exactly when it
        did not fail, and the flag lowered. */
    method ExecuteTransaction(t: TxType, quantity: JsInt, price: real, title: string, id: string, failed: bool)
      returns (ok: bool)
      requires Valid()
      modifies this, wallet, wallet.alerts
      ensures Valid()
      ensures var o := Guarded(old(wallet.isConnected), failed, SuccessMessage(t, quantity, price, title), TransactionFailed);
        ok == o.ok && wallet.alerts.alerts == old(wallet.alerts.alerts) + [Alert(id, o.kind, o.message)]
      ensures wallet.alerts.timers == old(wallet.alerts.timers) + multiset{id}
      ensures !old(wallet.isConnected) ==>
        wallet.Fields() == old(wallet.Fields()).(isLoading := true) && isProcessing == old(isProcessing)
      ensures old(wallet.isConnected) ==> wallet.Fields() == old(wallet.Fields()) && !isProcessing
    {
      if !wallet.isConnected {
        wallet.alerts.ShowAlert(id, Error, WalletNotConnected);
        wallet.BeginConnect();
        return false;
      }
      isProcessing := true;
      if !failed {
        wallet.alerts.ShowAlert(id, Success, SuccessMessage(t, quantity, price, title));
        ok := true;
      } else {
        wallet.alerts.ShowAlert(id, Error, TransactionFailed);
        ok := false;
      }
      isProcessing := false;
    }
  }
}
