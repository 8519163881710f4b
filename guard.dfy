/** The wallet gate shared by every action that needs a connected wallet:
    refuse with the wallet error when disconnected, otherwise settle after a
    delay and report success, or the action's own error when settlement fails. */
module Guard {
  import opened AlertContext
  import opened WalletContext

  /** What a guarded action returns and the one alert it shows. */
  datatype Outcome = Outcome(ok: bool, kind: AlertKind, message: string)

  /** The outcome of a guarded action, given whether the wallet was connected
      when it was called and whether settlement failed. */
  function Guarded(connected: bool, failed: bool, success: string, failure: string): (r: Outcome)
    ensures r.ok <==> connected && !failed
    ensures r.kind == Success <==> r.ok
    ensures !connected ==> r.message == WalletNotConnected
    ensures connected && !failed ==> r.message == success
    ensures connected && failed ==> r.message == failure
  {
    if !connected then Outcome(false, Error, WalletNotConnected)
    else if failed then Outcome(false, Error, failure)
    else Outcome(true, Success, success)
  }

  /** Settlement failure is invisible to a disconnected caller. */
  lemma DisconnectedIgnoresSettlement(success: string, failure: string)
    ensures Guarded(false, false, success, failure) == Guarded(false, true, success, failure)
  {
  }
}
