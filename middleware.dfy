/** The request middleware (middleware.ts): on chat requests it sets, on the
    response that `NextResponse.next()` returns, a header carrying the
    credential from the `openai-api-key` cookie, or one flagging that the
    client must supply it. The forwarded request is left as it came. */
module RequestMiddleware {
  import opened Base
  import opened Strings

  const ChatPath := "/api/chat"
  const ApiKeyHeader := "x-api-key"
  const UseClientKeyHeader := "x-use-client-key"

  /** The response headers `middleware` sets, given the request path and the
      value of the `openai-api-key` cookie. Other paths pass through
      untouched; on a chat path exactly one of the two headers is set. */
  function Middleware(path: string, cookie: Option<string>): (added: map<string, string>)
    ensures !StartsWith(path, ChatPath) ==> added == map[]
    ensures StartsWith(path, ChatPath) && cookie.Some? && cookie.value != "" ==>
      added == map[ApiKeyHeader := cookie.value]
    ensures StartsWith(path, ChatPath) && (cookie.None? || cookie.value == "") ==>
      added == map[UseClientKeyHeader := "true"] && ApiKeyHeader !in added
    ensures StartsWith(path, ChatPath) ==>
      |added| == 1 && (ApiKeyHeader in added <==> UseClientKeyHeader !in added)
  {
    if StartsWith(path, ChatPath) then
      if cookie.Some? && cookie.value != "" then map[ApiKeyHeader := cookie.value]
      else map[UseClientKeyHeader := "true"]
    else map[]
  }
}
