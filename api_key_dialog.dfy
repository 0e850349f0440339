/** The settings dialog (components/api-key-dialog.tsx): entering, validating,
    saving and clearing the key, and saving custom instructions. The remote
    test is an outcome handed in; the dialog counts how often it asks for
    one. */
module ApiKeyDialog {
  import opened Base
  import opened Strings
  import opened ApiKeyUtils

  /** What the input shows in place of a saved key: "sk-" and thirty-one
      bullets (U+2022). */
  const Mask := "sk-\U{2022}\U{2022}\U{2022}\U{2022}\U{2022}\U{2022}\U{2022}\U{2022}\U{2022}\U{2022}\U{2022}\U{2022}\U{2022}\U{2022}\U{2022}\U{2022}\U{2022}\U{2022}\U{2022}\U{2022}\U{2022}\U{2022}\U{2022}\U{2022}\U{2022}\U{2022}\U{2022}\U{2022}\U{2022}\U{2022}\U{2022}"

  const KeyRequiredError := "API key is required"
  const FormatError := "Invalid API key format. It should start with 'sk-' and be at least 20 characters long."
  const DefaultInvalidError := "Invalid API key. Please check your key and try again."
  const InstructionsEntry := "custom_instructions"

  datatype Tab = ApiKeyTab | InstructionsTab

  /** JavaScript truthiness of the saved key: present and non-empty. */
  predicate IsSet(key: Option<string>) {
    key.Some? && key.value != ""
  }

  /** The three ways `handleSave` treats the key input. */
  datatype SavePath = BlankInput | MaskedSavedKey | Validate

  /** A blank input (`!apiKey.trim()`) is refused first; then the mask over a
      saved key counts as already saved; anything else is validated. */
  function KeySavePath(apiKey: string, savedKey: Option<string>): (p: SavePath)
    ensures p == BlankInput <==> IsBlank(apiKey)
    ensures p == MaskedSavedKey <==> !IsBlank(apiKey) && apiKey == Mask && IsSet(savedKey)
  {
    // `!apiKey.trim()` holds exactly for blank inputs (TrimEmptyIffBlank)
    if IsBlank(apiKey) then BlankInput
    else if apiKey == Mask && IsSet(savedKey) then MaskedSavedKey
    else Validate
  }

  /** Storage does not hold a validity flag that reads "false". */
  predicate NotFlaggedInvalid(storage: map<string, string>) {
    !(ValidEntry in storage && storage[ValidEntry] == "false")
  }

  /** Without a "false" flag the derived status is never `invalid`. */
  lemma NotFlaggedIsNeverInvalid(storage: map<string, string>)
    requires NotFlaggedInvalid(storage)
    ensures ApiKeyStatus(storage) != Invalid
  {
  }

  class Dialog {
    const store: LocalStore
    var apiKey: string
    var savedKey: Option<string>
    var error: string
    var success: bool
    var activeTab: Tab
    var isValidating: bool
    var validationResult: Option<TestResult>
    /** The instructions the page passes in; saving or clearing them goes
        through the page's handler, which also writes them to storage. */
    var customInstructions: string
    /** How many times the dialog has called `testApiKey`. */
    ghost var remoteTests: nat

    constructor (store: LocalStore, customInstructions: string)
      ensures this.store == store && this.customInstructions == customInstructions
      ensures apiKey == "" && savedKey.None? && error == "" && !success
      ensures activeTab == ApiKeyTab && !isValidating && validationResult.None? && remoteTests == 0
    {
      this.store := store;
      this.customInstructions := customInstructions;
      apiKey := "";
      savedKey := None;
      error := "";
      success := false;
      activeTab := ApiKeyTab;
      isValidating := false;
      validationResult := None;
      remoteTests := 0;
    }

    /** The effect run whenever `open` changes (on mount, on opening and on
        closing): a stored, non-empty key becomes the saved key and the input
        shows the mask. */
    method OnOpen()
      modifies this`savedKey, this`apiKey
      ensures KeyEntry in store.entries && store.entries[KeyEntry] != "" ==>
        savedKey == Some(store.entries[KeyEntry]) && apiKey == Mask
      ensures !(KeyEntry in store.entries && store.entries[KeyEntry] != "") ==>
        savedKey == old(savedKey) && apiKey == old(apiKey)
    {
      var storedKey := store.GetItem(KeyEntry);
      if storedKey.Some? && storedKey.value != "" {
        savedKey := Some(storedKey.value);
        apiKey := Mask;
      }
    }

    /** Editing the key input clears the error, the success flag and the last
        validation result. */
    method OnInputChange(value: string)
      modifies this`apiKey, this`error, this`success, this`validationResult
      ensures apiKey == value && error == "" && !success && validationResult.None?
    {
      apiKey := value;
      error := "";
      success := false;
      validationResult := None;
    }

    /** Switching tabs. */
    method SetActiveTab(tab: Tab)
      modifies this`activeTab
      ensures activeTab == tab
    {
      activeTab := tab;
    }

    /** `validateAndSaveApiKey(key)`. A key that fails the format check is
        rejected without a remote test; a key the remote test rejects is not
        stored; an accepted key is stored with the flag "true" at the instant
        `validatedAt`. Whatever the path, validation is over on return, and
        the dialog never writes a "false" flag. */
    method ValidateAndSaveApiKey(key: string, fetched: ValidateFetch, validatedAt: string) returns (saved: bool)
      modifies this`isValidating, this`error, this`success, this`validationResult, this`savedKey, this`remoteTests, store
      ensures !isValidating
      ensures saved <==> IsValidApiKeyFormat(key) && TestApiKey(fetched).valid
      ensures !IsValidApiKeyFormat(key) ==>
        error == FormatError && !success && remoteTests == old(remoteTests) &&
        validationResult == old(validationResult) && savedKey == old(savedKey) &&
        store.entries == old(store.entries)
      ensures IsValidApiKeyFormat(key) ==>
        remoteTests == old(remoteTests) + 1 && validationResult == Some(TestApiKey(fetched))
      ensures IsValidApiKeyFormat(key) && !TestApiKey(fetched).valid ==>
        error == OrElse(TestApiKey(fetched).error, DefaultInvalidError) && !success &&
        savedKey == old(savedKey) && store.entries == old(store.entries)
      ensures saved ==>
        error == "" && success && savedKey == Some(key) &&
        store.entries == WithApiKey(old(store.entries), key, true, validatedAt) &&
        ApiKeyStatus(store.entries) == Stored
      ensures NotFlaggedInvalid(old(store.entries)) ==> NotFlaggedInvalid(store.entries)
    {
      isValidating := true;
      error := "";
      success := false;

      if !IsValidApiKeyFormat(key) {
        error := FormatError;
        isValidating := false;
        return false;
      }

      var result := TestApiKey(fetched);
      remoteTests := remoteTests + 1;
      validationResult := Some(result);

      if !result.valid {
        error := OrElse(result.error, DefaultInvalidError);
        isValidating := false;
        return false;
      }

      FormatValidKeyIsNotBlank(key);
      store.StoreApiKey(key, true, validatedAt);
      savedKey := Some(key);
      success := true;
      isValidating := false;
      return true;
    }

    /** The key-tab branch of `handleSave`: the input decides the path (see
        `KeySavePath`). A blank input only sets the "required" error; the
        mask over a saved key only reports success, with no remote test and
        no write; anything else is validated and saved. */
    method SaveApiKey(fetched: ValidateFetch, validatedAt: string)
      modifies this`isValidating, this`error, this`success, this`validationResult, this`savedKey, this`remoteTests
      modifies store
      ensures KeySavePath(apiKey, old(savedKey)) != Validate ==>
        isValidating == old(isValidating) && remoteTests == old(remoteTests) && savedKey == old(savedKey) &&
        validationResult == old(validationResult) && store.entries == old(store.entries)
      ensures KeySavePath(apiKey, old(savedKey)) == BlankInput ==>
        error == KeyRequiredError && success == old(success)
      ensures KeySavePath(apiKey, old(savedKey)) == MaskedSavedKey ==>
        success && error == old(error)
      ensures KeySavePath(apiKey, old(savedKey)) == Validate ==>
        !isValidating && remoteTests == old(remoteTests) + (if IsValidApiKeyFormat(apiKey) then 1 else 0) &&
        (success <==> IsValidApiKeyFormat(apiKey) && TestApiKey(fetched).valid) &&
        (success ==> savedKey == Some(apiKey) && store.entries == WithApiKey(old(store.entries), apiKey, true, validatedAt)) &&
        (!success ==> savedKey == old(savedKey) && store.entries == old(store.entries))
      ensures KeySavePath(apiKey, old(savedKey)) == Validate && !IsValidApiKeyFormat(apiKey) ==>
        error == FormatError && validationResult == old(validationResult)
      ensures KeySavePath(apiKey, old(savedKey)) == Validate && IsValidApiKeyFormat(apiKey) ==>
        validationResult == Some(TestApiKey(fetched)) &&
        error == (if TestApiKey(fetched).valid then "" else OrElse(TestApiKey(fetched).error, DefaultInvalidError))
      ensures NotFlaggedInvalid(old(store.entries)) ==> NotFlaggedInvalid(store.entries)
    {
      var path := KeySavePath(apiKey, savedKey);
      if path == BlankInput {
        error := KeyRequiredError;
      } else if path == MaskedSavedKey {
        success := true;
      } else {
        var _ := ValidateAndSaveApiKey(apiKey, fetched, validatedAt);
      }
    }

    /** `handleSave`: on the key tab it does what `SaveApiKey` says; on the
        instructions tab it hands the instructions to the page, which stores
        them, and reports success. */
    method HandleSave(fetched: ValidateFetch, validatedAt: string)
      modifies this`isValidating, this`error, this`success, this`validationResult, this`savedKey, this`remoteTests
      modifies store
      ensures activeTab == ApiKeyTab && KeySavePath(apiKey, old(savedKey)) != Validate ==>
        isValidating == old(isValidating) && remoteTests == old(remoteTests) && savedKey == old(savedKey) &&
        validationResult == old(validationResult) && store.entries == old(store.entries)
      ensures activeTab == ApiKeyTab && KeySavePath(apiKey, old(savedKey)) == BlankInput ==>
        error == KeyRequiredError && success == old(success)
      ensures activeTab == ApiKeyTab && KeySavePath(apiKey, old(savedKey)) == MaskedSavedKey ==>
        success && error == old(error)
      ensures activeTab == ApiKeyTab && KeySavePath(apiKey, old(savedKey)) == Validate ==>
        !isValidating && remoteTests == old(remoteTests) + (if IsValidApiKeyFormat(apiKey) then 1 else 0) &&
        (success <==> IsValidApiKeyFormat(apiKey) && TestApiKey(fetched).valid) &&
        (success ==> savedKey == Some(apiKey) && store.entries == WithApiKey(old(store.entries), apiKey, true, validatedAt)) &&
        (!success ==> savedKey == old(savedKey) && store.entries == old(store.entries))
      ensures activeTab == ApiKeyTab && KeySavePath(apiKey, old(savedKey)) == Validate && !IsValidApiKeyFormat(apiKey) ==>
        error == FormatError && validationResult == old(validationResult)
      ensures activeTab == ApiKeyTab && KeySavePath(apiKey, old(savedKey)) == Validate && IsValidApiKeyFormat(apiKey) ==>
        validationResult == Some(TestApiKey(fetched)) &&
        error == (if TestApiKey(fetched).valid then "" else OrElse(TestApiKey(fetched).error, DefaultInvalidError))
      ensures activeTab == InstructionsTab ==>
        success && store.entries == old(store.entries)[InstructionsEntry := customInstructions] &&
        remoteTests == old(remoteTests) && savedKey == old(savedKey) && isValidating == old(isValidating) &&
        error == old(error) && validationResult == old(validationResult)
      ensures NotFlaggedInvalid(old(store.entries)) ==> NotFlaggedInvalid(store.entries)
    {
      match activeTab {
        case ApiKeyTab =>
          SaveApiKey(fetched, validatedAt);
        case InstructionsTab =>
          store.SetItem(InstructionsEntry, customInstructions);
          success := true;
      }
    }

    /** `handleClear`. On the key tab it clears the stored key, the input,
        the saved key and the validation result; on the instructions tab it
        empties the instructions. Either way the success flag goes off. */
    method HandleClear()
      modifies this`apiKey, this`savedKey, this`validationResult, this`customInstructions, this`success, store
      ensures !success
      ensures activeTab == ApiKeyTab ==>
        store.entries == WithoutApiKey(old(store.entries)) && ApiKeyStatus(store.entries) == Missing &&
        apiKey == "" && savedKey.None? && validationResult.None? &&
        customInstructions == old(customInstructions)
      ensures activeTab == InstructionsTab ==>
        customInstructions == "" && store.entries == old(store.entries)[InstructionsEntry := ""] &&
        apiKey == old(apiKey) && savedKey == old(savedKey) && validationResult == old(validationResult)
      ensures NotFlaggedInvalid(old(store.entries)) ==> NotFlaggedInvalid(store.entries)
    {
      match activeTab {
        case ApiKeyTab =>
          store.ClearApiKey();
          apiKey := "";
          savedKey := None;
          validationResult := None;
        case InstructionsTab =>
          customInstructions := "";
          store.SetItem(InstructionsEntry, "");
      }
      success := false;
    }
  }
}
