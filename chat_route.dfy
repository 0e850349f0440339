/** The chat relay (app/api/chat/route.ts): checks the credential header,
    truncates long histories and starts one streamed completion. */
module ChatRoute {
  import opened Base
  import opened ChatTypes

  const HistoryLimit := 20
  const DefaultModel := "gpt-4o"
  const MaxTokens := 2000
  const KeyRequiredError := "API key is required"
  const GenerationError := "An error occurred while generating the response"
  const UnknownError := "Unknown error"

  /** The parsed request body: the message list and an optional model. */
  datatype ChatBody = ChatBody(messages: seq<Message>, model: Option<string>)

  /** The one upstream completion call: model, bearer credential, payload and
      output budget. */
  datatype CompletionRequest = CompletionRequest(model: string, apiKey: string, messages: seq<Message>, maxTokens: nat)

  /** A JSON error reply, or the streamed reply of the completion call that
      was started. */
  datatype ChatResponse =
    | JsonReply(status: int, error: string, details: Option<string>)
    | DataStream(request: CompletionRequest)

  /** The payload sent upstream: the whole list when it has at most twenty
      messages, otherwise the first message followed by the last nineteen,
      twenty in all. */
  function TruncateHistory(messages: seq<Message>): (r: seq<Message>)
    ensures |messages| <= HistoryLimit ==> r == messages
    ensures |messages| > HistoryLimit ==>
      |r| == HistoryLimit && r[0] == messages[0] &&
      forall i :: 1 <= i < HistoryLimit ==> r[i] == messages[|messages| - HistoryLimit + i]
  {
    if |messages| > HistoryLimit then messages[..1] + messages[|messages| - (HistoryLimit - 1)..] else messages
  }

  /** The payload never reorders, repeats or invents a message: it is a
      subsequence of the conversation, which itself is left as it was. */
  lemma {:induction false} TruncationKeepsOrder(messages: seq<Message>)
    ensures IsSubsequence(TruncateHistory(messages), messages)
  {
    var n := |messages|;
    if n > HistoryLimit {
      HeadAndSuffixIsSubsequence(messages, n - (HistoryLimit - 1));
      assert TruncateHistory(messages) == [messages[0]] + messages[n - (HistoryLimit - 1)..];
    } else {
      SubsequenceReflexive(messages);
    }
  }

  /** The effect of `POST /api/chat`. `body` is what `req.json()` yields or
      throws, `apiKeyHeader` is the `x-api-key` header, and `streamFailure`
      is what starting the stream throws, if anything. The body is parsed
      before the header is read. */
  function Post(body: Result<ChatBody, Thrown>, apiKeyHeader: Option<string>, streamFailure: Option<Thrown>): (r: ChatResponse)
    ensures body.Err? ==> r == JsonReply(500, GenerationError, Some(MessageOr(body.error, UnknownError)))
    ensures body.Ok? && (apiKeyHeader.None? || apiKeyHeader.value == "") ==> r == JsonReply(401, KeyRequiredError, None)
    ensures r.DataStream? <==> body.Ok? && apiKeyHeader.Some? && apiKeyHeader.value != "" && streamFailure.None?
    ensures r.DataStream? ==>
      r.request.apiKey == apiKeyHeader.value && r.request.apiKey != "" &&
      r.request.messages == TruncateHistory(body.value.messages) &&
      r.request.model == body.value.model.GetOr(DefaultModel) &&
      r.request.maxTokens == MaxTokens
    ensures body.Ok? && apiKeyHeader.Some? && apiKeyHeader.value != "" && streamFailure.Some? ==>
      r == JsonReply(500, GenerationError, Some(MessageOr(streamFailure.value, UnknownError)))
  {
    match body
    case Err(t) => JsonReply(500, GenerationError, Some(MessageOr(t, UnknownError)))
    case Ok(ChatBody(messages, model)) =>
      if apiKeyHeader.None? || apiKeyHeader.value == "" then
        JsonReply(401, KeyRequiredError, None)
      else if streamFailure.Some? then
        JsonReply(500, GenerationError, Some(MessageOr(streamFailure.value, UnknownError)))
      else
        DataStream(CompletionRequest(model.GetOr(DefaultModel), apiKeyHeader.value, TruncateHistory(messages), MaxTokens))
  }

  /** With twenty-five messages the payload is message 1 followed by
      messages 7 to 25 (counting from 1). */
  lemma TwentyFiveMessages(messages: seq<Message>)
    requires |messages| == 25
    ensures TruncateHistory(messages) == [messages[0]] + messages[6..]
  {
    var r := TruncateHistory(messages);
    assert |messages[6..]| == 19;
    forall i | 0 <= i < 20 ensures r[i] == ([messages[0]] + messages[6..])[i] {
    }
  }
}
