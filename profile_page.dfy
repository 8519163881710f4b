/** `ProfilePage`: the three content tabs cut from the catalogue, the add-funds
    dialog with its amount guard, and the settings dialog. */
module ProfilePage {
  import opened Js
  import opened Catalog
  import opened AlertContext

  function Min(a: int, b: int): int
  {
    if a <= b then a else b
  }

  /** `s.slice(start, end)` for non-negative bounds: both are clamped to the
      length, and an end before the start gives nothing. */
  function Slice<T>(s: seq<T>, start: nat, end: nat): (r: seq<T>)
    ensures |r| == if Min(end, |s|) <= Min(start, |s|) then 0 else Min(end, |s|) - Min(start, |s|)
    ensures forall i :: 0 <= i < |r| ==> r[i] == s[start + i]
  {
    var a := Min(start, |s|);
    var b := Min(end, |s|);
    if b <= a then [] else s[a..b]
  }

  function Collectibles(contents: seq<Content>): seq<Content> { Slice(contents, 0, 4) }
  function Created(contents: seq<Content>): seq<Content> { Slice(contents, 4, 6) }
  function Favorites(contents: seq<Content>): seq<Content> { Slice(contents, 6, 10) }

  /** The three tabs are consecutive cuts: together they are the first ten items
      (or all of them), each in catalogue order. */
  lemma TabsPartitionPrefix(contents: seq<Content>)
    ensures Collectibles(contents) + Created(contents) + Favorites(contents) == contents[..Min(10, |contents|)]
  {
    var n := |contents|;
    var all := Collectibles(contents) + Created(contents) + Favorites(contents);
    var p := contents[..Min(10, n)];
    assert |all| == |p|;
    forall i | 0 <= i < |p| ensures all[i] == p[i] {
      if i < |Collectibles(contents)| {
        assert all[i] == Collectibles(contents)[i];
      } else if i < |Collectibles(contents)| + |Created(contents)| {
        assert all[i] == Created(contents)[i - |Collectibles(contents)|];
      } else {
        assert all[i] == Favorites(contents)[i - |Collectibles(contents)| - |Created(contents)|];
      }
    }
  }

  /** An item of a cut stands in the catalogue at a position inside the cut. */
  lemma SliceIndex<T>(s: seq<T>, start: nat, end: nat, x: T)
    requires x in Slice(s, start, end)
    ensures exists i :: start <= i < end && i < |s| && s[i] == x
  {
    var r := Slice(s, start, end);
    var j :| 0 <= j < |r| && r[j] == x;
    assert s[start + j] == x;
  }

  /** With distinct ids, two cuts that do not overlap share no id. */
  lemma CutsApart(contents: seq<Content>, a: nat, b: nat, c: nat, d: nat, x: Content, y: Content)
    requires forall i, j :: 0 <= i < j < |contents| ==> contents[i].id != contents[j].id
    requires b <= c && x in Slice(contents, a, b) && y in Slice(contents, c, d)
    ensures x.id != y.id
  {
    SliceIndex(contents, a, b, x);
    SliceIndex(contents, c, d, y);
    var i :| a <= i < b && i < |contents| && contents[i] == x;
    var j :| c <= j < d && j < |contents| && contents[j] == y;
  }

  /** With distinct ids in the catalogue, no item appears on two of the tabs. */
  lemma TabsDisjoint(contents: seq<Content>)
    requires forall i, j :: 0 <= i < j < |contents| ==> contents[i].id != contents[j].id
    ensures forall x, y :: x in Collectibles(contents) && y in Created(contents) ==> x.id != y.id
    ensures forall x, y :: x in Collectibles(contents) && y in Favorites(contents) ==> x.id != y.id
    ensures forall x, y :: x in Created(contents) && y in Favorites(contents) ==> x.id != y.id
  {
    forall x, y | x in Collectibles(contents) && y in Created(contents) ensures x.id != y.id {
      CutsApart(contents, 0, 4, 4, 6, x, y);
    }
    forall x, y | x in Collectibles(contents) && y in Favorites(contents) ensures x.id != y.id {
      CutsApart(contents, 0, 4, 6, 10, x, y);
    }
    forall x, y | x in Created(contents) && y in Favorites(contents) ensures x.id != y.id {
      CutsApart(contents, 4, 6, 6, 10, x, y);
    }
  }

  const InvalidAmount := "Please enter a valid amount"
  const AddFundsFailed := "Failed to add funds. Please try again."
  const SettingsSaved := "Settings saved successfully"
  const SaveSettingsFailed := "Failed to save settings. Please try again."

  function FundsAddedPrefix(): string { "Successfully added " }
  function FundsAddedSuffix(): string { " ETH to your wallet" }

  /** `Successfully added ${fundAmount} ETH to your wallet`: the amount as typed. */
  function FundsAdded(amount: string): string
  {
    FundsAddedPrefix() + amount + FundsAddedSuffix()
  }

  /** The amount typed can be read back from the message. */
  lemma FundsAddedDeterminesAmount(a: string, b: string)
    requires FundsAdded(a) == FundsAdded(b)
    ensures a == b
  {
    CancelAffixes(FundsAddedPrefix(), a, b, FundsAddedSuffix());
  }

  /** `!fundAmount || parseFloat(fundAmount) <= 0` is false: the text is not
      empty and does not parse to a number at or below 0. */
  predicate AmountAccepted(fundAmount: string, parsed: JsNumber)
  {
    !(fundAmount == [] || (parsed.Num? && parsed.value <= 0.0))
  }

  /** The guard rejects the empty text and every amount at or below 0, accepts
      every positive amount, and lets a text that does not parse through. */
  lemma AmountGuard(fundAmount: string, x: real)
    ensures !AmountAccepted("", Num(x)) && !AmountAccepted("", NaN)
    ensures fundAmount != [] ==> (AmountAccepted(fundAmount, Num(x)) <==> x > 0.0)
    ensures fundAmount != [] ==> AmountAccepted(fundAmount, NaN)
  {
  }

  /** The preset buttons, as `amount.toString()` writes 0.1, 0.5, 1 and 5. */
  const Presets: seq<string> := ["0.1", "0.5", "1", "5"]
  const PresetValues: seq<real> := [0.1, 0.5, 1.0, 5.0]

  /** Every preset passes the guard. */
  lemma PresetsAccepted()
    ensures forall i :: 0 <= i < |Presets| ==> i < |PresetValues| && AmountAccepted(Presets[i], Num(PresetValues[i]))
  {
  }

  class Profile {
    const alerts: AlertCenter
    var showAddFundsModal: bool
    var showSettingsModal: bool
    var fundAmount: string
    var isProcessing: bool

    ghost predicate Valid()
      reads this, alerts
    {
      alerts.Valid()
    }

    constructor (alerts: AlertCenter)
      requires alerts.Valid()
      ensures Valid()
      ensures this.alerts == alerts
      ensures !showAddFundsModal && !showSettingsModal && fundAmount == "" && !isProcessing
    {
      this.alerts := alerts;
      showAddFundsModal := false;
      showSettingsModal := false;
      fundAmount := "";
      isProcessing := false;
    }

    /** The 'Add Funds' button. */
    method OpenAddFunds()
      requires Valid()
      modifies this
      ensures Valid()
      ensures showAddFundsModal
      ensures showSettingsModal == old(showSettingsModal) && fundAmount == old(fundAmount) && isProcessing == old(isProcessing)
    {
      showAddFundsModal := true;
    }

    /** The settings button. */
    method OpenSettings()
      requires Valid()
      modifies this
      ensures Valid()
      ensures showSettingsModal
      ensures showAddFundsModal == old(showAddFundsModal) && fundAmount == old(fundAmount) && isProcessing == old(isProcessing)
    {
      showSettingsModal := true;
    }

    /** The amount input, disabled while processing. */
    method SetFundAmount(text: string)
      requires Valid()
      modifies this
      ensures Valid()
      ensures fundAmount == if old(isProcessing) then old(fundAmount) else text
      ensures showAddFundsModal == old(showAddFundsModal) && showSettingsModal == old(showSettingsModal)
      ensures isProcessing == old(isProcessing)
    {
      if !isProcessing {
        fundAmount := text;
      }
    }

    /** A preset button, disabled while processing. */
    method ChoosePreset(i: nat)
      requires Valid()
      requires i < |Presets|
      modifies this
      ensures Valid()
      ensures fundAmount == if old(isProcessing) then old(fundAmount) else Presets[i]
      ensures showAddFundsModal == old(showAddFundsModal) && showSettingsModal == old(showSettingsModal)
      ensures isProcessing == old(isProcessing)
    {
      if !isProcessing {
        fundAmount := Presets[i];
      }
    }

    /** `handleAddFunds`, with `parsed` what `parseFloat` makes of the amount.
        A rejected amount shows one error and changes nothing else. An accepted
        one shows the success message with the amount as typed, closes the
        dialog and clears the amount, or shows the failure and keeps both; the
        flag ends lowered either way. */
    method HandleAddFunds(parsed: JsNumber, id: string, failed: bool)
      requires Valid()
      modifies this, alerts
      ensures Valid()
      ensures alerts.timers == old(alerts.timers) + multiset{id}
      ensures !AmountAccepted(old(fundAmount), parsed) ==>
        && alerts.alerts == old(alerts.alerts) + [Alert(id, Error, InvalidAmount)]
        && showAddFundsModal == old(showAddFundsModal) && fundAmount == old(fundAmount) && isProcessing == old(isProcessing)
      ensures AmountAccepted(old(fundAmount), parsed) && !failed ==>
        && alerts.alerts == old(alerts.alerts) + [Alert(id, Success, FundsAdded(old(fundAmount)))]
        && !showAddFundsModal && fundAmount == "" && !isProcessing
      ensures AmountAccepted(old(fundAmount), parsed) && failed ==>
        && alerts.alerts == old(alerts.alerts) + [Alert(id, Error, AddFundsFailed)]
        && showAddFundsModal == old(showAddFundsModal) && fundAmount == old(fundAmount) && !isProcessing
      ensures showSettingsModal == old(showSettingsModal)
    {
      if fundAmount == [] || (parsed.Num? && parsed.value <= 0.0) {
        alerts.ShowAlert(id, Error, InvalidAmount);
        return;
      }
      isProcessing := true;
      if !failed {
        alerts.ShowAlert(id, Success, FundsAdded(fundAmount));
        showAddFundsModal := false;
        fundAmount := "";
      } else {
        alerts.ShowAlert(id, Error, AddFundsFailed);
      }
      isProcessing := false;
    }

    /** `handleSaveSettings`: no guard; success closes the settings dialog. */
    method HandleSaveSettings(id: string, failed: bool)
      requires Valid()
      modifies this, alerts
      ensures Valid()
      ensures alerts.timers == old(alerts.timers) + multiset{id}
      ensures !failed ==> alerts.alerts == old(alerts.alerts) + [Alert(id, Success, SettingsSaved)] && !showSettingsModal
      ensures failed ==>
        alerts.alerts == old(alerts.alerts) + [Alert(id, Error, SaveSettingsFailed)] && showSettingsModal == old(showSettingsModal)
      ensures !isProcessing
      ensures showAddFundsModal == old(showAddFundsModal) && fundAmount == old(fundAmount)
    {
      isProcessing := true;
      if !failed {
        alerts.ShowAlert(id, Success, SettingsSaved);
        showSettingsModal := false;
      } else {
        alerts.ShowAlert(id, Error, SaveSettingsFailed);
      }
      isProcessing := false;
    }

    /** The add-funds backdrop and close button do nothing while processing. */
    method CloseAddFunds()
      requires Valid()
      modifies this
      ensures Valid()
      ensures showAddFundsModal == (old(showAddFundsModal) && old(isProcessing))
      ensures showSettingsModal == old(showSettingsModal) && fundAmount == old(fundAmount) && isProcessing == old(isProcessing)
    {
      if !isProcessing {
        showAddFundsModal := false;
      }
    }

    /** The settings backdrop and close button do nothing while processing. */
    method CloseSettings()
      requires Valid()
      modifies this
      ensures Valid()
      ensures showSettingsModal == (old(showSettingsModal) && old(isProcessing))
      ensures showAddFundsModal == old(showAddFundsModal) && fundAmount == old(fundAmount) && isProcessing == old(isProcessing)
    {
      if !isProcessing {
        showSettingsModal := false;
      }
    }
  }
}
