# TARS chat client: key handling, relays and chat state

This project models the core of a browser chat client for OpenAI models. The
user brings their own OpenAI key. The browser keeps it in local storage,
checks it through a validation route before storing it, and sends it with
every chat request in a header. Two server routes relay calls to OpenAI. The
page keeps the conversations in local storage and lists them in a
searchable history.

The model covers:

- the key helpers in `lib/api-key-utils.ts`: the format check, the status
  derived from storage, storing and clearing the key, and the result mapping
  of `testApiKey` (module `ApiKeyUtils`, with local storage as the class
  `LocalStore`);
- the chat relay `app/api/chat/route.ts` (module `ChatRoute`): parse, key
  check, truncation to twenty messages, the completion request and the error
  replies;
- the validation relay `app/api/validate-key/route.ts` (module
  `ValidateKeyRoute`): key check, upstream rejection, model filtering and
  detection, failures; and the end-to-end agreement between this route and
  `testApiKey`;
- the request middleware `middleware.ts` (module `RequestMiddleware`): the
  response headers it sets on chat requests;
- the history list `components/chat/chat-history.tsx` (module `ChatHistory`):
  filter by title, sort by creation time, empty state and count label;
- the input panel `components/chat/chat-panel.tsx` (module `ChatPanel`): the
  submission gate, the send button, the alerts and the Enter key;
- the page `app/page.tsx` (module `ChatPage`, class `Page`): mount, error and
  finish handlers, new, load and delete chat;
- the settings dialog `components/api-key-dialog.tsx` (module `ApiKeyDialog`,
  class `Dialog`): open, edit, validate and save, clear;
- the page, dialog and panel together after a first-time key save (module
  `KeySession`), where the findings below show up.

Network calls, parsing and clocks are not executed. Their outcomes are
parameters. `ValidateFetch` is what the browser's call to the validation
route yields. `Upstream` is what OpenAI's model listing yields. `Result<_, Thrown>`
is a JSON body that parses or throws. `now` and `validatedAt` are clock
readings. Local storage is a `map<string, string>` held by `LocalStore`.

Behaviour worth knowing, as the code has it:

- The key's format (`sk-` prefix, at least twenty characters) is checked by
  the dialog before the remote test, not by the validation route. The route
  accepts any non-empty key and lets OpenAI decide.
- A transport failure is not a separate outcome for the client: `testApiKey`
  reports it as an invalid key with the thrown message.
- `testApiKey` returns the detected model but drops the list of models the
  route sends.
- A reply from the validation route is parsed before its status is read, so
  an unparsable error body shows up as a thrown error.
- The dialog never stores a key with the flag `"false"`. Apart from a
  `"false"` flag already in storage, which mount reads, only the page's
  `onError` makes the page status `invalid`, and that status is not written
  to storage. Mount does not open the dialog for an `invalid` key.

## Model

| member | source | states |
|---|---|---|
| Strings.TrimEmptyIffBlank | components/chat/chat-panel.tsx:48 | `s.trim()` is empty exactly when every character of `s` is ECMAScript white space or a line terminator |
| Strings.NatToDecimal | app/page.tsx:41 | the decimal rendering of a number is non-empty and made of digits only |
| ApiKeyUtils.IsValidApiKeyFormat | lib/api-key-utils.ts:6-9 | a key has the right format exactly when it starts with "sk-" and has at least twenty characters |
| ApiKeyUtils.FormatValidKeyIsNotBlank | lib/api-key-utils.ts:6-9 | a key that passes the format check is never blank |
| ApiKeyUtils.ApiKeyStatus | lib/api-key-utils.ts:49-65 | `missing` exactly when the key entry is absent or empty; `invalid` exactly when a key is present and the flag reads "false"; `stored` otherwise |
| ApiKeyUtils.WithApiKey | lib/api-key-utils.ts:68-72 | storing writes the key, the flag text and the validation instant, reads back the exact key, touches no other entry, and yields status `stored` for a non-empty key stored as valid |
| ApiKeyUtils.WithoutApiKey | lib/api-key-utils.ts:75-79 | clearing removes the three key entries, touches no other entry, and yields status `missing` |
| ApiKeyUtils.LocalStore.StoreApiKey | lib/api-key-utils.ts:68-72 | the storage afterwards is `WithApiKey` of the storage before |
| ApiKeyUtils.LocalStore.ClearApiKey | lib/api-key-utils.ts:75-79 | the storage afterwards is `WithoutApiKey` of the storage before |
| ApiKeyUtils.StoreThenClearRoundTrip | lib/api-key-utils.ts:68-79 | a stored key reads back unchanged; clearing after storing leaves no key and the same storage as clearing alone |
| ApiKeyUtils.TestApiKey | lib/api-key-utils.ts:12-46 | valid exactly for a parsed ok reply, then with its model and no error; otherwise an error: the reply's error or "Invalid API key" for a non-ok reply, the thrown message or "Unknown error occurred" for a throw |
| ChatRoute.TruncateHistory | app/api/chat/route.ts:22 | at most twenty messages are sent unchanged; a longer conversation sends the first message and the last nineteen |
| ChatRoute.TruncationKeepsOrder | app/api/chat/route.ts:22 | the messages sent are a subsequence of the conversation: nothing reordered, repeated or invented |
| ChatRoute.TwentyFiveMessages | app/api/chat/route.ts:22 | with twenty-five messages the first and the last nineteen are sent |
| ChatRoute.Post | app/api/chat/route.ts:7-48 | an unparsable body gives 500 with the generation error and details; a missing or empty key gives 401; a stream starts exactly when the body parses, the key is present and the stream does not throw, with that key, the truncated history, the requested model or "gpt-4o", and 2000 tokens; a stream failure gives 500 |
| ValidateKeyRoute.UpstreamCall | app/api/validate-key/route.ts:4-19 | OpenAI is called exactly when a non-empty key header is present, with the bearer authorization built from that key |
| ValidateKeyRoute.FilterModels | app/api/validate-key/route.ts:38 | keeps exactly the ids containing "gpt-4" or "gpt-3.5", never more than given |
| ValidateKeyRoute.FilterModelsAppend | app/api/validate-key/route.ts:38 | filtering distributes over concatenation, so listing order is kept |
| ValidateKeyRoute.DetectedModel | app/api/validate-key/route.ts:43 | the first of the filtered models, or "Unknown model" when none is left |
| ValidateKeyRoute.DetectedModelIsFirstSupported | app/api/validate-key/route.ts:43 | the detected model is the first supported id of the listing, or "Unknown model" when there is none |
| ValidateKeyRoute.Post | app/api/validate-key/route.ts:1-64 | no key gives 401 and no upstream call is made; an upstream rejection gives 400 with OpenAI's message or "Invalid API key" and the upstream status; acceptance (200) exactly when upstream listed models for a present key, with the filtered models and the detected model; a thrown fetch or an unparsable upstream body gives 500 with the thrown message or "Unknown error occurred"; an ok reply without a model list gives 500 with the runtime's TypeError text; failures and only failures give 500 |
| ValidateKeyRoute.ClientSeesRouteVerdict | lib/api-key-utils.ts:14-45 | end to end, `testApiKey` reports a key valid exactly when the route accepted it, with the route's detected model, and passes the route's missing-key and rejection messages through |
| RequestMiddleware.Middleware | middleware.ts:3-25 | only responses to chat requests get headers; with a key cookie, the key header and no client flag; without, only the client flag "true"; exactly one of the two |
| ChatHistory.FilterChats | components/chat/chat-history.tsx:27-31 | keeps exactly the ids whose lower-cased title contains the lower-cased term, in listing order, never adds one, and keeps all for an empty term |
| ChatHistory.SortChats | components/chat/chat-history.tsx:32-36 | a permutation of its input, ordered by creation time (missing time as 0), newest or oldest first |
| ChatHistory.FilteredAndSorted | components/chat/chat-history.tsx:25-36 | exactly the saved chats whose titles match, each once, sorted in the chosen order; every chat for an empty term |
| ChatHistory.CountNoun | components/chat/chat-history.tsx:64 | "conversation" exactly for one, "conversations" otherwise |
| ChatHistory.InitialView | components/chat/chat-history.tsx:23-36 | on first render (no search, newest first) every saved chat is listed once, newest first |
| ChatHistory.View | components/chat/chat-history.tsx:38-64 | the empty state exactly when no chat is saved, whatever the search; otherwise the filtered and sorted ids under "<n> conversation(s)" |
| ChatPanel.EffectiveStatus | components/chat/chat-panel.tsx:31 | a panel given no status works as if the key were stored |
| ChatPanel.OnSubmit | components/chat/chat-panel.tsx:46-59 | a blank input does nothing; a missing or invalid key opens the dialog when a handler exists and never submits; the message is submitted exactly when the input is not blank and the key is stored |
| ChatPanel.SendDisabled | components/chat/chat-panel.tsx:195 | the send button is disabled exactly for a blank input or a missing or invalid key |
| ChatPanel.SendEnabledIffSubmits | components/chat/chat-panel.tsx:195 | the button is enabled exactly when submitting reaches `handleSubmit` |
| ChatPanel.KeyAlert | components/chat/chat-panel.tsx:88-89 | the key alert shows exactly for a missing or invalid key, destructive exactly for an invalid one |
| ChatPanel.ShowsRequestError | components/chat/chat-panel.tsx:180 | the request error shows exactly for an error with a stored key, never beside the key alert |
| ChatPanel.OnKeyDown | components/chat/chat-panel.tsx:117-124 | Enter without Shift is always swallowed and submits exactly for a non-blank input; other keys are left alone |
| ChatPanel.EnterReachesSubmitGate | components/chat/chat-panel.tsx:117-124 | a submit dispatched by Enter always passes the blank check and submits exactly when the key does not block |
| ChatPage.ChatTitle | app/page.tsx:44 | the title is the first thirty characters of the first message (all of a shorter one) followed by "..." |
| ChatPage.SavedIdIsNotNewChat | app/page.tsx:41 | an id made from the clock never equals "new" |
| ChatPage.MentionsKeyProblem | app/page.tsx:34 | an error is about the key when its lower-cased message contains "api key" or "authentication" |
| ChatPage.KeyRequiredReplyIsRecognized | app/page.tsx:34-37 | an error quoting the relay's "API key is required" is recognised as a key problem |
| ChatPage.Page.constructor | app/page.tsx:20-27 | the page starts on the unsaved chat with no saved chats, status `missing` and the dialog closed |
| ChatPage.Page.Mount | app/page.tsx:84-97 | loads stored chats when present, takes the status from storage, opens the dialog only for a missing key |
| ChatPage.Page.OnError | app/page.tsx:31-38 | an error mentioning "api key" or "authentication" (any case) sets `invalid` and opens the dialog; other errors change nothing |
| ChatPage.Page.OnFinish | app/page.tsx:39-81 | in the unsaved chat, saves a new chat under the clock's id with title, messages and creation time and makes it active; in a saved chat, replaces only its messages; in an empty unsaved chat, nothing |
| ChatPage.Page.StartNewChat | app/page.tsx:120-124 | back to the unsaved chat with no messages and an empty input |
| ChatPage.Page.LoadChat | app/page.tsx:126-129 | the chosen chat becomes active with its messages |
| ChatPage.Page.DeleteChat | app/page.tsx:131-140 | removes exactly that chat; deleting the active one starts a new chat, deleting another changes nothing else |
| ChatPage.Page.SetShowApiDialog | app/page.tsx:284 | the dialog's open state follows the dialog |
| ChatPage.Page.RefreshKeyStatus | components/api-key-dialog.tsx:112-116 | the page's status becomes the status storage now gives |
| ApiKeyDialog.KeySavePath | components/api-key-dialog.tsx:97-109 | a blank input is refused; the mask over a saved key counts as saved; anything else is validated |
| ApiKeyDialog.NotFlaggedIsNeverInvalid | lib/api-key-utils.ts:58-62 | storage without a "false" flag never gives status `invalid` |
| ApiKeyDialog.Dialog.constructor | components/api-key-dialog.tsx:34-44 | the dialog starts on the key tab with an empty input, no saved key, no error and no result |
| ApiKeyDialog.Dialog.OnOpen | components/api-key-dialog.tsx:46-52 | a stored non-empty key becomes the saved key and the input shows the mask; otherwise nothing changes |
| ApiKeyDialog.Dialog.OnInputChange | components/api-key-dialog.tsx:180-185 | editing sets the input and clears the error, success flag and result |
| ApiKeyDialog.Dialog.SetActiveTab | components/api-key-dialog.tsx:146 | the chosen tab becomes active |
| ApiKeyDialog.Dialog.ValidateAndSaveApiKey | components/api-key-dialog.tsx:54-93 | a badly formatted key gets the format error, no remote test and no write; a key the test rejects gets its error or the default and is not stored; a key is stored with flag "true" exactly when both pass; validation is over on return; no "false" flag is ever written |
| ApiKeyDialog.Dialog.SaveApiKey | components/api-key-dialog.tsx:96-116 | a blank input gets "API key is required"; the mask over a saved key reports success with no test and no write; anything else is validated: a bad format gets the format error and no test; otherwise the test result is kept, the error is the test's message or the default, or empty when valid, and the key is stored exactly when valid |
| ApiKeyDialog.Dialog.HandleSave | components/api-key-dialog.tsx:95-124 | on the key tab as `SaveApiKey`, errors and test result included; on the instructions tab the instructions are stored and success reported, with no remote test and the error and test result left as they were |
| ApiKeyDialog.Dialog.HandleClear | components/api-key-dialog.tsx:126-136 | on the key tab the key entries, input, saved key and result are cleared and the status is `missing`; on the instructions tab the instructions are emptied; success goes off either way |
| KeySession.SaveKeyAsWritten | components/api-key-dialog.tsx:112-116 | after a first-visit save of a good key, storage says `stored` but the page still says `missing` and the next message reopens the dialog |
| KeySession.SaveKeyWithRefresh | components/api-key-dialog.tsx:112-116 | with the page re-reading storage after a successful save, page and storage agree on `stored` and the message is submitted |

## Findings

| source | as written | input that shows it | evidently intended | confidence | as-written member | corrected member |
|---|---|---|---|---|---|---|
| components/api-key-dialog.tsx:112-116 | after a successful save the dialog neither reloads the page (the reload is commented out) nor tells the page; the page derived its key status once at mount (app/page.tsx:91-97) | empty storage; enter a key that passes the format check and the remote test, save, close the dialog, submit "hello" | the page's status becomes `stored` and the message is sent | medium, not executed | KeySession.SaveKeyAsWritten | KeySession.SaveKeyWithRefresh |

## Left out

- Network calls to OpenAI and between browser and routes are not made; their outcomes are parameters (`ValidateFetch`, `Upstream`, the stream failure).
- Streaming of the completion (`streamText`, `toDataStreamResponse`) and the chat hook's own message handling are library code; the chat route's model stops at the completion request it issues.
- The temperature (0.7) of the completion request is not modelled.
- The fetch patch in app/layout.tsx is not part of this model.
- Console logging, styling, icons and the presentational components are left out; they change no state.
- Clocks: `Date.now()` and `new Date()` in `onFinish` are one reading `now`; creation times are integers, not ISO strings, so unparsable dates (NaN timestamps) are not modelled.
- The success message timers (`setTimeout`) in the dialog are not modelled.
- JSON (de)serialisation of saved chats is not modelled; mount receives the parsed chats or nothing.
- The writes of `savedChats` to local storage in `onFinish` and `deleteChat` are not modelled; the page's `savedChats` state is, and storage of chats is only read at mount.
- React rendering and stale closures are not modelled; each handler runs atomically on the current state.
- Mount's loading of custom instructions and the first-visit showcase flag are not modelled; they only feed the UI.
- `ToLower` folds ASCII letters only, where JavaScript's `toLowerCase` folds all of Unicode.
- ChatPage.ChatTitle: counts Unicode scalar values, where `substring(0, 30)` counts UTF-16 code units; a message with characters outside the Basic Multilingual Plane (emoji) gets a longer title in the model than in the page.
- ApiKeyUtils.IsValidApiKeyFormat: the twenty-character minimum counts Unicode scalar values, where `length` counts UTF-16 code units; a key with characters outside the Basic Multilingual Plane can pass in the browser and fail in the model. Real keys are ASCII, where the two counts agree.
- The catch branch of `validateAndSaveApiKey` is not modelled; `testApiKey` never throws, so only a failing storage write reaches it.
- ChatRoute.Post: a body without a `messages` list (a TypeError in the route) is not modelled; the body is a parsed `ChatBody`.
- ValidateKeyRoute.Post: an ok upstream reply without a `data` list is reported with the V8 TypeError text; other engines word it differently.
- ChatHistory.SortChats: the order among chats with equal creation times is not stated; the contract says sorted and a permutation only.
- ApiKeyDialog.Dialog.HandleSave: on the instructions tab the page handler is modelled by its storage write only; the page's own copy of the instructions is not modelled.
- The headers the middleware sets go on its response, not on the request forwarded to the chat route, which reads the key from the request; the model records the headers only.
- The middleware's matcher configuration (`/api/:path*`) is not modelled; the path test in the function body is.
