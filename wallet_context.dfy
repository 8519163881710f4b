/** The simulated wallet session of `WalletContext`. */
module WalletContext {
  import opened Js
  import opened AlertContext

  const DemoAddress := "0x1234...abcd"
  const DemoBalance := "1.23 ETH"
  const EmptyBalance := "0"

  /** The error every guarded action shows when no wallet is connected. */
  const WalletNotConnected := "Please connect your wallet first"

  const Connected := "Wallet connected successfully"
  const ConnectFailed := "Failed to connect wallet"
  const Disconnected := "Wallet disconnected"

  /** The four session fields, as one value. */
  datatype Session = Session(isConnected: bool, address: Option<string>, balance: string, isLoading: bool)

  /** The state the provider starts in. */
  const InitialSession := Session(false, None, EmptyBalance, false)

  /** A session at an operation boundary: an address is present exactly when
      connected, and the balance is the demo balance when connected and '0' otherwise. */
  predicate WellFormed(s: Session)
  {
    && (s.isConnected <==> s.address.Some?)
    && (s.isConnected ==> s.address == Some(DemoAddress) && s.balance == DemoBalance)
    && (!s.isConnected ==> s.balance == EmptyBalance)
  }

  /** The session fields with what `connect` sets once its delay has passed. */
  function AfterConnect(s: Session, failed: bool): (r: Session)
    ensures !r.isLoading
    ensures !failed ==> r.isConnected && r.address == Some(DemoAddress) && r.balance == DemoBalance
    ensures failed ==> r == s.(isLoading := false)
  {
    if failed then s.(isLoading := false)
    else Session(true, Some(DemoAddress), DemoBalance, false)
  }

  /** The session fields with what `disconnect` sets. */
  function AfterDisconnect(s: Session): (r: Session)
    ensures !r.isConnected && r.address == None && r.balance == EmptyBalance
    ensures r.isLoading == s.isLoading
  {
    Session(false, None, EmptyBalance, s.isLoading)
  }

  lemma InitialWellFormed()
    ensures WellFormed(InitialSession)
    ensures !InitialSession.isConnected && InitialSession.address == None
    ensures InitialSession.balance == "0" && !InitialSession.isLoading
  {
  }

  /** Both operations keep the address-iff-connected invariant. */
  lemma OperationsKeepWellFormed(s: Session, failed: bool)
    requires WellFormed(s)
    ensures WellFormed(AfterConnect(s, failed))
    ensures WellFormed(AfterDisconnect(s))
  {
  }

  /** Disconnecting twice is disconnecting once. */
  lemma DisconnectIdempotent(s: Session)
    ensures AfterDisconnect(AfterDisconnect(s)) == AfterDisconnect(s)
  {
  }

  /** Connect after disconnect, and a second connect, land in the same session. */
  lemma ConnectIdempotent(s: Session)
    ensures AfterConnect(AfterConnect(s, false), false) == AfterConnect(s, false)
    ensures AfterConnect(AfterDisconnect(s), false) == AfterConnect(s, false)
  {
  }

  /** The provider: the four session fields and the alert queue it posts to. */
  class Wallet {
    const alerts: AlertCenter
    var isConnected: bool
    var address: Option<string>
    var balance: string
    var isLoading: bool

    function Fields(): Session
      reads this
    {
      Session(isConnected, address, balance, isLoading)
    }

    ghost predicate Valid()
      reads this, alerts
    {
      WellFormed(Fields()) && alerts.Valid()
    }

    /** `WalletProvider` mounted under an `AlertProvider`. */
    constructor (alerts: AlertCenter)
      requires alerts.Valid()
      ensures Valid()
      ensures this.alerts == alerts
      ensures Fields() == InitialSession
    {
      this.alerts := alerts;
      isConnected := false;
      address := None;
      balance := EmptyBalance;
      isLoading := false;
    }

    /** The synchronous part of `connect()`, up to its first `await`: what a
        caller that does not wait for the promise sees. */
    method BeginConnect()
      requires Valid()
      modifies this
      ensures Valid()
      ensures Fields() == old(Fields()).(isLoading := true)
    {
      isLoading := true;
    }

    /** The rest of `connect()`, once the one-second delay has passed, with the id
        of the alert it shows; `failed` selects the catch branch. */
    method CompleteConnect(id: string, failed: bool)
      requires Valid()
      modifies this, alerts
      ensures Valid()
      ensures Fields() == AfterConnect(old(Fields()), failed)
      ensures !failed ==> alerts.alerts == old(alerts.alerts) + [Alert(id, Success, Connected)]
      ensures failed ==> alerts.alerts == old(alerts.alerts) + [Alert(id, Error, ConnectFailed)]
      ensures alerts.timers == old(alerts.timers) + multiset{id}
    {
      if !failed {
        isConnected := true;
        address := Some(DemoAddress);
        balance := DemoBalance;
        alerts.ShowAlert(id, Success, Connected);
      } else {
        alerts.ShowAlert(id, Error, ConnectFailed);
      }
      isLoading := false;
    }

    /** An awaited `connect()`: isLoading is raised, then lowered on every path. */
    method Connect(id: string, failed: bool)
      requires Valid()
      modifies this, alerts
      ensures Valid()
      ensures Fields() == AfterConnect(old(Fields()), failed)
      ensures !isLoading
      ensures !failed ==> alerts.alerts == old(alerts.alerts) + [Alert(id, Success, Connected)]
      ensures failed ==> alerts.alerts == old(alerts.alerts) + [Alert(id, Error, ConnectFailed)]
      ensures alerts.timers == old(alerts.timers) + multiset{id}
    {
      BeginConnect();
      assert isLoading;
      CompleteConnect(id, failed);
    }

    /** `disconnect()`: from any state, back to no wallet, with one success alert. */
    method Disconnect(id: string)
      requires Valid()
      modifies this, alerts
      ensures Valid()
      ensures Fields() == AfterDisconnect(old(Fields()))
      ensures alerts.alerts == old(alerts.alerts) + [Alert(id, Success, Disconnected)]
      ensures alerts.timers == old(alerts.timers) + multiset{id}
    {
      isConnected := false;
      address := None;
      balance := EmptyBalance;
      alerts.ShowAlert(id, Success, Disconnected);
    }
  }
}
