/** `useCreator`: creating, updating and deleting content, each gated on the
    wallet and bracketed by the `isLoading` flag. */
module UseCreator {
  import opened AlertContext
  import opened WalletContext
  import opened Guard

  const ContentCreated := "Content created successfully"
  const ContentUpdated := "Content updated successfully"
  const ContentDeleted := "Content deleted successfully"
  const CreateFailed := "Failed to create content"
  const UpdateFailed := "Failed to update content"
  const DeleteFailed := "Failed to delete content"

  /** The three actions are told apart by their alerts, on success and on failure alike. */
  lemma MessagesDistinct()
    ensures ContentCreated != ContentUpdated && ContentUpdated != ContentDeleted && ContentCreated != ContentDeleted
    ensures CreateFailed != UpdateFailed && UpdateFailed != DeleteFailed && CreateFailed != DeleteFailed
  {
    assert ContentCreated[8] == 'c' && ContentUpdated[8] == 'u' && ContentDeleted[8] == 'd';
    assert CreateFailed[10] == 'c' && UpdateFailed[10] == 'u' && DeleteFailed[10] == 'd';
  }

  class CreatorHook {
    const wallet: Wallet
    var isLoading: bool

    ghost predicate Valid()
      reads this, wallet, wallet.alerts
    {
      wallet.Valid()
    }

    constructor (wallet: Wallet)
      requires wallet.Valid()
      ensures Valid()
      ensures this.wallet == wallet && !isLoading
    {
      this.wallet := wallet;
      isLoading := false;
    }

    /** `createContent(data)`: the data plays no part. */
    method CreateContent(id: string, failed: bool) returns (ok: bool)
      requires Valid()
      modifies this, wallet.alerts
      ensures Valid()
      ensures var o := Guarded(wallet.isConnected, failed, ContentCreated, CreateFailed);
        ok == o.ok && wallet.alerts.alerts == old(wallet.alerts.alerts) + [Alert(id, o.kind, o.message)]
      ensures wallet.alerts.timers == old(wallet.alerts.timers) + multiset{id}
      ensures isLoading == (old(isLoading) && !wallet.isConnected)
    {
      if !wallet.isConnected {
        wallet.alerts.ShowAlert(id, Error, WalletNotConnected);
        return false;
      }
      isLoading := true;
      if !failed {
        wallet.alerts.ShowAlert(id, Success, ContentCreated);
        ok := true;
      } else {
        wallet.alerts.ShowAlert(id, Error, CreateFailed);
        ok := false;
      }
      isLoading := false;
    }

    /** `updateContent(contentId, data)`: neither argument plays a part. */
    method UpdateContent(contentId: string, id: string, failed: bool) returns (ok: bool)
      requires Valid()
      modifies this, wallet.alerts
      ensures Valid()
      ensures var o := Guarded(wallet.isConnected, failed, ContentUpdated, UpdateFailed);
        ok == o.ok && wallet.alerts.alerts == old(wallet.alerts.alerts) + [Alert(id, o.kind, o.message)]
      ensures wallet.alerts.timers == old(wallet.alerts.timers) + multiset{id}
      ensures isLoading == (old(isLoading) && !wallet.isConnected)
    {
      if !wallet.isConnected {
        wallet.alerts.ShowAlert(id, Error, WalletNotConnected);
        return false;
      }
      isLoading := true;
      if !failed {
        wallet.alerts.ShowAlert(id, Success, ContentUpdated);
        ok := true;
      } else {
        wallet.alerts.ShowAlert(id, Error, UpdateFailed);
        ok := false;
      }
      isLoading := false;
    }

    /** `deleteContent(contentId)`: the id plays no part. */
    method DeleteContent(contentId: string, id: string, failed: bool) returns (ok: bool)
      requires Valid()
      modifies this, wallet.alerts
      ensures Valid()
      ensures var o := Guarded(wallet.isConnected, failed, ContentDeleted, DeleteFailed);
        ok == o.ok && wallet.alerts.alerts == old(wallet.alerts.alerts) + [Alert(id, o.kind, o.message)]
      ensures wallet.alerts.timers == old(wallet.alerts.timers) + multiset{id}
      ensures isLoading == (old(isLoading) && !wallet.isConnected)
    {
      if !wallet.isConnected {
        wallet.alerts.ShowAlert(id, Error, WalletNotConnected);
        return false;
      }
      isLoading := true;
      if !failed {
        wallet.alerts.ShowAlert(id, Success, ContentDeleted);
        ok := true;
      } else {
        wallet.alerts.ShowAlert(id, Error, DeleteFailed);
        ok := false;
      }
      isLoading := false;
    }
  }
}
