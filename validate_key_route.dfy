/** The key validator (app/api/validate-key/route.ts): one model-listing call
    upstream, whose outcome is mapped to a reply for `testApiKey`. */
module ValidateKeyRoute {
  import opened Base
  import opened Strings
  import ApiKeyUtils

  const KeyRequiredError := "API key is required"
  const DefaultRejection := "Invalid API key"
  const UnknownError := "Unknown error occurred"
  const UnknownModel := "Unknown model"
  /** What the runtime throws when an ok upstream body has no `data` list
      and `data.data.filter` is called on `undefined`. */
  const MissingListError := "Cannot read properties of undefined (reading 'filter')"

  /** The upstream JSON body: `error.message` when present, and the ids of
      the `data` list when present. */
  datatype UpstreamBody = UpstreamBody(errorMessage: Option<string>, modelIds: Option<seq<string>>)

  /** What the upstream `/v1/models` fetch observes. */
  datatype Upstream =
    | UpstreamResponded(status: int, body: Result<UpstreamBody, Thrown>)
    | UpstreamThrew(thrown: Thrown)

  /** The JSON body of the reply. */
  datatype ValidateJson =
    | KeyRequired
    | Rejected(error: string, upstreamStatus: int)
    | Accepted(model: string, models: seq<string>)
    | Failed(error: string)

  datatype ValidateReply = ValidateReply(status: int, json: ValidateJson)

  predicate HasKey(apiKeyHeader: Option<string>) {
    apiKeyHeader.Some? && apiKeyHeader.value != ""
  }

  /** The `Authorization` header of the upstream call, or `None` when no call
      is made: only a present, non-empty key reaches upstream. */
  function UpstreamCall(apiKeyHeader: Option<string>): (authorization: Option<string>)
    ensures authorization.Some? <==> HasKey(apiKeyHeader)
    ensures authorization.Some? ==> authorization.value == "Bearer " + apiKeyHeader.value
  {
    if HasKey(apiKeyHeader) then Some("Bearer " + apiKeyHeader.value) else None
  }

  /** The model ids the application supports. */
  predicate IsSupportedModel(id: string) {
    Contains(id, "gpt-4") || Contains(id, "gpt-3.5")
  }

  /** The supported ids, in upstream order. */
  function FilterModels(ids: seq<string>): (models: seq<string>)
    ensures forall id :: id in models <==> id in ids && IsSupportedModel(id)
    ensures |models| <= |ids|
  {
    if ids == [] then []
    else (if IsSupportedModel(ids[0]) then [ids[0]] else []) + FilterModels(ids[1..])
  }

  /** Filtering works piecewise, so it keeps the upstream order. */
  lemma {:induction false} FilterModelsAppend(a: seq<string>, b: seq<string>)
    ensures FilterModels(a + b) == FilterModels(a) + FilterModels(b)
    decreases |a|
  {
    if a != [] {
      assert (a + b)[0] == a[0];
      assert (a + b)[1..] == a[1..] + b;
      FilterModelsAppend(a[1..], b);
    } else {
      assert a + b == b;
    }
  }

  /** `gpt4Models.length > 0 ? gpt4Models[0].id : "Unknown model"` */
  function DetectedModel(models: seq<string>): string {
    if |models| > 0 then models[0] else UnknownModel
  }

  /** The detected model is the first supported id upstream lists, at index
      `k`; when none is supported it is "Unknown model". */
  lemma {:induction false} DetectedModelIsFirstSupported(ids: seq<string>) returns (k: nat)
    ensures FilterModels(ids) != [] ==>
      k < |ids| && ids[k] == DetectedModel(FilterModels(ids)) && IsSupportedModel(ids[k]) &&
      forall j :: 0 <= j < k ==> !IsSupportedModel(ids[j])
    ensures FilterModels(ids) == [] ==>
      DetectedModel(FilterModels(ids)) == UnknownModel && forall j :: 0 <= j < |ids| ==> !IsSupportedModel(ids[j])
    decreases |ids|
  {
    if ids == [] {
      k := 0;
    } else if IsSupportedModel(ids[0]) {
      k := 0;
      assert FilterModels(ids)[0] == ids[0];
    } else {
      var k' := DetectedModelIsFirstSupported(ids[1..]);
      k := k' + 1;
      assert FilterModels(ids) == FilterModels(ids[1..]);
      if FilterModels(ids) == [] {
        forall j | 0 <= j < |ids| ensures !IsSupportedModel(ids[j]) {
          if j > 0 { assert ids[j] == ids[1..][j - 1]; }
        }
      } else {
        forall j | 0 <= j < k ensures !IsSupportedModel(ids[j]) {
          if j > 0 { assert ids[j] == ids[1..][j - 1]; }
        }
      }
    }
  }

  /** The effect of `POST /api/validate-key`. `upstream` is what the
      model-listing call would observe; without a key no call is made
      (`UpstreamCall` is `None`) and `upstream` plays no part in the reply. */
  function Post(apiKeyHeader: Option<string>, upstream: Upstream): (reply: ValidateReply)
    ensures !HasKey(apiKeyHeader) ==> reply == ValidateReply(401, KeyRequired)
    ensures UpstreamCall(apiKeyHeader).None? ==> reply == ValidateReply(401, KeyRequired)
    ensures HasKey(apiKeyHeader) && upstream.UpstreamResponded? && upstream.body.Ok? &&
            !ApiKeyUtils.IsOkStatus(upstream.status) ==>
      reply == ValidateReply(400, Rejected(OrElse(upstream.body.value.errorMessage, DefaultRejection), upstream.status))
    ensures reply.json.Accepted? <==>
      HasKey(apiKeyHeader) && upstream.UpstreamResponded? && ApiKeyUtils.IsOkStatus(upstream.status) &&
      upstream.body.Ok? && upstream.body.value.modelIds.Some?
    ensures reply.json.Accepted? ==>
      reply.status == 200 &&
      reply.json.models == FilterModels(upstream.body.value.modelIds.value) &&
      reply.json.model == DetectedModel(reply.json.models) &&
      (reply.json.models != [] ==> reply.json.model == reply.json.models[0])
    ensures reply.json.Failed? <==> reply.status == 500
    ensures HasKey(apiKeyHeader) && upstream.UpstreamThrew? ==>
      reply == ValidateReply(500, Failed(MessageOr(upstream.thrown, UnknownError)))
    ensures HasKey(apiKeyHeader) && upstream.UpstreamResponded? && upstream.body.Err? ==>
      reply == ValidateReply(500, Failed(MessageOr(upstream.body.error, UnknownError)))
    ensures HasKey(apiKeyHeader) && upstream.UpstreamResponded? && ApiKeyUtils.IsOkStatus(upstream.status) &&
            upstream.body.Ok? && upstream.body.value.modelIds.None? ==>
      reply == ValidateReply(500, Failed(MissingListError))
  {
    if !HasKey(apiKeyHeader) then ValidateReply(401, KeyRequired)
    else match upstream
      case UpstreamThrew(t) => ValidateReply(500, Failed(MessageOr(t, UnknownError)))
      case UpstreamResponded(status, Err(t)) => ValidateReply(500, Failed(MessageOr(t, UnknownError)))
      case UpstreamResponded(status, Ok(data)) =>
        if !ApiKeyUtils.IsOkStatus(status) then
          ValidateReply(400, Rejected(OrElse(data.errorMessage, DefaultRejection), status))
        else if data.modelIds.None? then
          ValidateReply(500, Failed(MissingListError))
        else
          var models := FilterModels(data.modelIds.value);
          ValidateReply(200, Accepted(DetectedModel(models), models))
  }

  /** The reply as `testApiKey`'s fetch observes it. */
  function AsFetched(reply: ValidateReply): ApiKeyUtils.ValidateFetch {
    var error := match reply.json
      case KeyRequired => Some(KeyRequiredError)
      case Rejected(e, _) => Some(e)
      case Failed(e) => Some(e)
      case Accepted(_, _) => None;
    var model := if reply.json.Accepted? then Some(reply.json.model) else None;
    ApiKeyUtils.Responded(reply.status, Ok(ApiKeyUtils.ValidateReplyBody(error, model)))
  }

  /** End to end, client and route agree: `testApiKey` reports a valid key
      exactly when upstream listed models for a present key, with the model
      the route detected; a missing key is reported as such; and an upstream
      rejection reaches the client with the upstream message preserved. */
  lemma ClientSeesRouteVerdict(apiKeyHeader: Option<string>, upstream: Upstream)
    ensures ApiKeyUtils.TestApiKey(AsFetched(Post(apiKeyHeader, upstream))).valid <==>
      HasKey(apiKeyHeader) && upstream.UpstreamResponded? && ApiKeyUtils.IsOkStatus(upstream.status) &&
      upstream.body.Ok? && upstream.body.value.modelIds.Some?
    ensures ApiKeyUtils.TestApiKey(AsFetched(Post(apiKeyHeader, upstream))).valid ==>
      ApiKeyUtils.TestApiKey(AsFetched(Post(apiKeyHeader, upstream))).model ==
        Some(DetectedModel(FilterModels(upstream.body.value.modelIds.value)))
    ensures !HasKey(apiKeyHeader) ==>
      ApiKeyUtils.TestApiKey(AsFetched(Post(apiKeyHeader, upstream))).error == Some(KeyRequiredError)
    ensures HasKey(apiKeyHeader) && upstream.UpstreamResponded? && upstream.body.Ok? &&
            !ApiKeyUtils.IsOkStatus(upstream.status) ==>
      ApiKeyUtils.TestApiKey(AsFetched(Post(apiKeyHeader, upstream))).error ==
        Some(OrElse(upstream.body.value.errorMessage, DefaultRejection))
  {
  }
}
