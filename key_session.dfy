/** The page, the settings dialog and the chat panel together: what a user
    who saves a key sees next. */
module KeySession {
  import opened Base
  import opened Strings
  import opened ApiKeyUtils
  import opened ChatPanel
  import opened ChatPage
  import opened ApiKeyDialog

  /** As written: on a first visit (empty storage) the page opens the dialog,
      the user enters a key that passes the format check and the remote
      test, and the dialog stores it. The page's status was derived at mount
      and nothing re-derives it, so storage says `stored` while the page
      still says `missing`, and submitting a message reopens the dialog
      instead of sending it. */
  method SaveKeyAsWritten(key: string, fetched: ValidateFetch, validatedAt: string, message: string)
    returns (storeStatus: KeyStatus, pageStatus: KeyStatus, effect: SubmitEffect)
    requires IsValidApiKeyFormat(key) && TestApiKey(fetched).valid && !IsBlank(message)
    ensures storeStatus == Stored
    ensures pageStatus == Missing
    ensures effect == OpenApiDialog
  {
    var store := new LocalStore(map[]);
    var page := new Page();
    page.Mount(None, store);
    var dialog := new Dialog(store, "");
    dialog.OnOpen();
    assert dialog.savedKey.None? && dialog.activeTab == ApiKeyTab;
    dialog.OnInputChange(key);
    FormatValidKeyIsNotBlank(key);
    assert KeySavePath(key, dialog.savedKey) == Validate;
    dialog.HandleSave(fetched, validatedAt);
    assert dialog.success && store.entries == WithApiKey(map[], key, true, validatedAt);
    page.SetShowApiDialog(false);
    storeStatus := store.Status();
    pageStatus := page.apiKeyStatus;
    effect := OnSubmit(message, Some(pageStatus), true);
  }

  /** Corrected: after a successful save the page re-derives its status from
      storage (what the commented-out reload would have done), and the same
      message is sent. */
  method SaveKeyWithRefresh(key: string, fetched: ValidateFetch, validatedAt: string, message: string)
    returns (storeStatus: KeyStatus, pageStatus: KeyStatus, effect: SubmitEffect)
    requires IsValidApiKeyFormat(key) && TestApiKey(fetched).valid && !IsBlank(message)
    ensures storeStatus == Stored
    ensures pageStatus == storeStatus
    ensures effect == HandleSubmit
  {
    var store := new LocalStore(map[]);
    var page := new Page();
    page.Mount(None, store);
    var dialog := new Dialog(store, "");
    dialog.OnOpen();
    assert dialog.savedKey.None? && dialog.activeTab == ApiKeyTab;
    dialog.OnInputChange(key);
    FormatValidKeyIsNotBlank(key);
    assert KeySavePath(key, dialog.savedKey) == Validate;
    dialog.HandleSave(fetched, validatedAt);
    assert dialog.success && store.entries == WithApiKey(map[], key, true, validatedAt);
    if dialog.success {
      page.RefreshKeyStatus(store);
    }
    page.SetShowApiDialog(false);
    storeStatus := store.Status();
    pageStatus := page.apiKeyStatus;
    effect := OnSubmit(message, Some(pageStatus), true);
  }
}
