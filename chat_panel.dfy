/** The message input panel (components/chat/chat-panel.tsx): which callback a
    submission reaches, when the send button is disabled, which alerts show,
    and when Enter submits. */
module ChatPanel {
  import opened Base
  import opened Strings
  import opened ApiKeyUtils

  /** The status the panel works with: the one supplied, or `stored`. */
  function EffectiveStatus(apiKeyStatus: Option<KeyStatus>): (s: KeyStatus)
    ensures apiKeyStatus.None? ==> s == Stored
    ensures apiKeyStatus.Some? ==> s == apiKeyStatus.value
  {
    apiKeyStatus.GetOr(Stored)
  }

  /** A status that blocks sending. */
  predicate Blocks(status: KeyStatus) {
    status == Missing || status == Invalid
  }

  /** The one callback a submission reaches, if any. */
  datatype SubmitEffect = NoEffect | OpenApiDialog | HandleSubmit

  /** `onSubmit`: a blank input does nothing; a missing or invalid key opens
      the settings dialog when a handler is given and never submits; a stored
      key submits. */
  function OnSubmit(input: string, apiKeyStatus: Option<KeyStatus>, hasDialogHandler: bool): (e: SubmitEffect)
    ensures Trim(input) == "" ==> e == NoEffect
    ensures e == HandleSubmit <==> !IsBlank(input) && EffectiveStatus(apiKeyStatus) == Stored
    ensures e == OpenApiDialog <==> !IsBlank(input) && Blocks(EffectiveStatus(apiKeyStatus)) && hasDialogHandler
  {
    TrimEmptyIffBlank(input);
    if Trim(input) == "" then NoEffect
    else if Blocks(EffectiveStatus(apiKeyStatus)) then
      if hasDialogHandler then OpenApiDialog else NoEffect
    else HandleSubmit
  }

  /** The send button's `disabled` predicate. */
  function SendDisabled(input: string, apiKeyStatus: Option<KeyStatus>): (disabled: bool)
    ensures disabled <==> IsBlank(input) || Blocks(EffectiveStatus(apiKeyStatus))
  {
    TrimEmptyIffBlank(input);
    Trim(input) == "" || Blocks(EffectiveStatus(apiKeyStatus))
  }

  /** The button and the form agree: the send button is enabled exactly when
      submitting would reach `handleSubmit`. */
  lemma SendEnabledIffSubmits(input: string, apiKeyStatus: Option<KeyStatus>, hasDialogHandler: bool)
    ensures !SendDisabled(input, apiKeyStatus) <==> OnSubmit(input, apiKeyStatus, hasDialogHandler) == HandleSubmit
  {
  }

  datatype AlertVariant = DefaultVariant | Destructive

  /** The key-warning alert: shown for a missing or invalid key, destructive
      only for an invalid one. */
  function KeyAlert(apiKeyStatus: Option<KeyStatus>): (a: Option<AlertVariant>)
    ensures a.Some? <==> Blocks(EffectiveStatus(apiKeyStatus))
    ensures a == Some(Destructive) <==> EffectiveStatus(apiKeyStatus) == Invalid
  {
    var s := EffectiveStatus(apiKeyStatus);
    if Blocks(s) then Some(if s == Invalid then Destructive else DefaultVariant) else None
  }

  /** The request-error alert shows only for an error while the key is
      stored, so it never shows beside the key warning. */
  function ShowsRequestError(hasError: bool, apiKeyStatus: Option<KeyStatus>): (shown: bool)
    ensures shown <==> hasError && EffectiveStatus(apiKeyStatus) == Stored
    ensures shown ==> KeyAlert(apiKeyStatus).None?
  {
    hasError && EffectiveStatus(apiKeyStatus) == Stored
  }

  datatype KeyDownEffect = KeyDownEffect(preventDefault: bool, dispatchSubmit: bool)

  /** The textarea's `onKeyDown`: Enter without Shift never inserts a line
      break, and dispatches a submit event only for a non-blank input;
      Shift+Enter and other keys are left alone. */
  function OnKeyDown(key: string, shiftKey: bool, input: string): (k: KeyDownEffect)
    ensures k.preventDefault <==> key == "Enter" && !shiftKey
    ensures k.dispatchSubmit <==> key == "Enter" && !shiftKey && !IsBlank(input)
  {
    TrimEmptyIffBlank(input);
    if key == "Enter" && !shiftKey then KeyDownEffect(true, Trim(input) != "")
    else KeyDownEffect(false, false)
  }

  /** A submit dispatched by Enter always gets past the blank-input check of
      `onSubmit`: it submits with a stored key and otherwise asks for one. */
  lemma {:induction false} EnterReachesSubmitGate(input: string, apiKeyStatus: Option<KeyStatus>)
    requires OnKeyDown("Enter", false, input).dispatchSubmit
    ensures OnSubmit(input, apiKeyStatus, true) != NoEffect
    ensures OnSubmit(input, apiKeyStatus, true) == HandleSubmit <==> !Blocks(EffectiveStatus(apiKeyStatus))
  {
  }
}
