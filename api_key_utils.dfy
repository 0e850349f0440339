/** The credential store and its status rule (lib/api-key-utils.ts).

    The browser's local storage is a map from entry names to strings. The
    store keeps three entries for the key; `storeApiKey` and `clearApiKey`
    write or remove exactly those three, and the status is derived from them. */
module ApiKeyUtils {
  import opened Base
  import opened Strings

  const KeyEntry := "openai_api_key"
  const ValidEntry := "openai_api_key_valid"
  const ValidatedAtEntry := "openai_api_key_last_validated"

  /** The three entries the store owns. */
  const ManagedEntries: set<string> := {KeyEntry, ValidEntry, ValidatedAtEntry}

  const KeyPrefix := "sk-"
  const MinKeyLength := 20

  const DefaultTestError := "Invalid API key"
  const UnknownTestError := "Unknown error occurred"

  datatype KeyStatus = Missing | Stored | Invalid

  /** A key looks like a provider key: it starts with "sk-" and has at least
      twenty characters. */
  predicate IsValidApiKeyFormat(apiKey: string) {
    StartsWith(apiKey, KeyPrefix) && |apiKey| >= MinKeyLength
  }

  /** A key that passes the format check is never blank, so storing it makes
      the status `stored` or `invalid`, never `missing`. */
  lemma FormatValidKeyIsNotBlank(apiKey: string)
    requires IsValidApiKeyFormat(apiKey)
    ensures apiKey != "" && !IsBlank(apiKey)
  {
    assert apiKey[0] == apiKey[..3][0] == 's';
  }

  /** The status derived from storage. An absent or empty key entry means
      `missing` whatever the flag says; otherwise only a flag that reads
      exactly "false" means `invalid`, and an absent flag (keys saved before
      validation existed) or any other text means `stored`. */
  function ApiKeyStatus(storage: map<string, string>): (status: KeyStatus)
    ensures status == Missing <==> KeyEntry !in storage || storage[KeyEntry] == ""
    ensures status == Invalid <==>
      KeyEntry in storage && storage[KeyEntry] != "" && ValidEntry in storage && storage[ValidEntry] == "false"
    ensures status == Stored <==>
      KeyEntry in storage && storage[KeyEntry] != "" && (ValidEntry !in storage || storage[ValidEntry] != "false")
  {
    if KeyEntry !in storage || storage[KeyEntry] == "" then Missing
    else if ValidEntry in storage && storage[ValidEntry] == "false" then Invalid
    else Stored
  }

  /** `isValid.toString()` */
  function FlagText(isValid: bool): string {
    if isValid then "true" else "false"
  }

  /** Storage after `storeApiKey(apiKey, isValid)` at the instant
      `validatedAt`: the key reads back as written, the flag follows
      `isValid`, every entry the store does not own is untouched, and a
      non-empty key yields `stored` or `invalid` according to the flag. */
  function WithApiKey(storage: map<string, string>, apiKey: string, isValid: bool, validatedAt: string): (r: map<string, string>)
    ensures KeyEntry in r && r[KeyEntry] == apiKey
    ensures ValidEntry in r && r[ValidEntry] == (if isValid then "true" else "false")
    ensures ValidatedAtEntry in r && r[ValidatedAtEntry] == validatedAt
    ensures r - ManagedEntries == storage - ManagedEntries
    ensures r.Keys == storage.Keys + ManagedEntries
    ensures apiKey != "" ==> ApiKeyStatus(r) == (if isValid then Stored else Invalid)
    ensures apiKey == "" ==> ApiKeyStatus(r) == Missing
  {
    storage[KeyEntry := apiKey][ValidEntry := FlagText(isValid)][ValidatedAtEntry := validatedAt]
  }

  /** Storage after `clearApiKey()`: none of the three entries is left, every
      other entry is untouched, and the status is `missing`. */
  function WithoutApiKey(storage: map<string, string>): (r: map<string, string>)
    ensures r.Keys !! ManagedEntries
    ensures r - ManagedEntries == storage - ManagedEntries
    ensures ApiKeyStatus(r) == Missing
  {
    storage - ManagedEntries
  }

  /** The browser's local storage, updated in place by `setItem` and
      `removeItem`. */
  class LocalStore {
    var entries: map<string, string>

    constructor (initial: map<string, string>)
      ensures entries == initial
    {
      entries := initial;
    }

    /** `localStorage.getItem(name)` */
    function GetItem(name: string): (v: Option<string>)
      reads this
      ensures v.Some? <==> name in entries
      ensures v.Some? ==> v.value == entries[name]
    {
      if name in entries then Some(entries[name]) else None
    }

    /** `getApiKeyStatus()` */
    function Status(): (status: KeyStatus)
      reads this
      ensures status == ApiKeyStatus(entries)
    {
      ApiKeyStatus(entries)
    }

    /** `localStorage.setItem(name, value)` */
    method SetItem(name: string, value: string)
      modifies this
      ensures entries == old(entries)[name := value]
    {
      entries := entries[name := value];
    }

    /** `localStorage.removeItem(name)` */
    method RemoveItem(name: string)
      modifies this
      ensures entries == old(entries) - {name}
    {
      entries := entries - {name};
    }

    /** `storeApiKey(apiKey, isValid)`; the clock reading that
        `new Date().toISOString()` takes is the parameter `validatedAt`. */
    method StoreApiKey(apiKey: string, isValid: bool, validatedAt: string)
      modifies this
      ensures entries == WithApiKey(old(entries), apiKey, isValid, validatedAt)
    {
      SetItem(KeyEntry, apiKey);
      SetItem(ValidEntry, FlagText(isValid));
      SetItem(ValidatedAtEntry, validatedAt);
    }

    /** `clearApiKey()` */
    method ClearApiKey()
      modifies this
      ensures entries == WithoutApiKey(old(entries))
    {
      RemoveItem(KeyEntry);
      RemoveItem(ValidEntry);
      RemoveItem(ValidatedAtEntry);
      assert entries == old(entries) - {KeyEntry} - {ValidEntry} - {ValidatedAtEntry};
    }
  }

  /** Storing a key and reading it back returns exactly that key; clearing
      and reading back returns nothing. */
  lemma {:induction false} StoreThenClearRoundTrip(storage: map<string, string>, apiKey: string, validatedAt: string)
    ensures WithApiKey(storage, apiKey, true, validatedAt)[KeyEntry] == apiKey
    ensures KeyEntry !in WithoutApiKey(WithApiKey(storage, apiKey, true, validatedAt))
    ensures WithoutApiKey(WithApiKey(storage, apiKey, true, validatedAt)) == WithoutApiKey(storage)
  {
    var stored := WithApiKey(storage, apiKey, true, validatedAt);
    assert WithoutApiKey(stored) == stored - ManagedEntries;
  }

  /** The body of the `/api/validate-key` reply as `testApiKey` reads it. */
  datatype ValidateReplyBody = ValidateReplyBody(error: Option<string>, model: Option<string>)

  /** What `testApiKey`'s fetch observes: a response with its status and a
      body that parses as JSON or throws, or a fetch that throws. */
  datatype ValidateFetch =
    | Responded(status: int, body: Result<ValidateReplyBody, Thrown>)
    | FetchThrew(thrown: Thrown)

  datatype TestResult = TestResult(valid: bool, error: Option<string>, model: Option<string>)

  /** `response.ok` */
  predicate IsOkStatus(status: int) {
    200 <= status <= 299
  }

  /** The result mapping of `testApiKey`. The body is parsed before the status
      is looked at, so an unparsable body is reported as a thrown error even
      on a non-ok response. */
  function TestApiKey(outcome: ValidateFetch): (r: TestResult)
    ensures r.valid <==> outcome.Responded? && outcome.body.Ok? && IsOkStatus(outcome.status)
    ensures r.valid ==> r.error.None? && r.model == outcome.body.value.model
    ensures !r.valid ==> r.model.None? && r.error.Some?
    ensures outcome.Responded? && outcome.body.Ok? && !IsOkStatus(outcome.status) ==>
      r.error == Some(OrElse(outcome.body.value.error, DefaultTestError))
    ensures outcome.FetchThrew? ==> r.error == Some(MessageOr(outcome.thrown, UnknownTestError))
    ensures outcome.Responded? && outcome.body.Err? ==> r.error == Some(MessageOr(outcome.body.error, UnknownTestError))
  {
    match outcome
    case FetchThrew(t) => TestResult(false, Some(MessageOr(t, UnknownTestError)), None)
    case Responded(status, Err(t)) => TestResult(false, Some(MessageOr(t, UnknownTestError)), None)
    case Responded(status, Ok(data)) =>
      if !IsOkStatus(status) then TestResult(false, Some(OrElse(data.error, DefaultTestError)), None)
      else TestResult(true, None, data.model)
  }
}
