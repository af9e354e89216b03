/**
 * `POST /api/generate-text`: a primary model call, and one retry on a
 * fallback model when the primary error's message looks like a quota error.
 */
module TextRoute {
  import opened Wrappers
  import opened Strings
  import opened RouteCommon

  const PRIMARY_MODEL: ModelId := "gemini-2.0-flash-exp"
  const FALLBACK_MODEL: ModelId := "gemini-1.5-flash"

  /** The request body; `image` and `mimeType` are optional. */
  datatype TextRequest = TextRequest(apiKey: Option<string>, prompt: string, image: Option<string>, mimeType: Option<string>)

  /** `[prompt]`, plus one inline part only when both `image` and `mimeType` are truthy. */
  method BuildContent(req: TextRequest) returns (content: seq<ContentItem>)
    ensures Truthy(req.image) && Truthy(req.mimeType) ==>
      content == [PromptText(req.prompt), InlineData(req.image.value, req.mimeType.value)]
    ensures !(Truthy(req.image) && Truthy(req.mimeType)) ==> content == [PromptText(req.prompt)]
  {
    content := [PromptText(req.prompt)];
    if Truthy(req.image) && Truthy(req.mimeType) {
      content := content + [InlineData(req.image.value, req.mimeType.value)];
    }
  }

  /** The route's test on `primaryError.message`, lower-cased. */
  predicate IsQuotaError(message: string) {
    var m := Lower(message);
    Contains(m, "quota") || Contains(m, "429") || Contains(m, "exhausted")
  }

  /** The test ignores case: a message and its lower-cased form are classified alike. */
  lemma QuotaTestIgnoresCase(message: string)
    ensures IsQuotaError(Lower(message)) == IsQuotaError(message)
  {
    LowerIdempotent(message);
  }

  /** Any spelling of a keyword, in any case, makes the error a quota error. */
  lemma QuotaKeywordsMatch(message: string, word: string)
    requires Lower(word) in {"quota", "429", "exhausted"}
    requires Contains(message, word)
    ensures IsQuotaError(message)
  {
    LowerKeepsContains(message, word);
  }

  /** A keyword anywhere in the message, in any case, sends the request to the fallback model. */
  lemma QuotaKeywordAnywhere(prefix: string, word: string, suffix: string)
    requires Lower(word) in {"quota", "429", "exhausted"}
    ensures IsQuotaError(prefix + word + suffix)
  {
    var m := prefix + word + suffix;
    assert m[|prefix|..][..|word|] == word;
    ContainsSuffix(m, |prefix|, word);
    QuotaKeywordsMatch(m, word);
  }

  /**
   * The route handler.  `body` is what `await req.json()` gives, or the
   * message it rejects with.  `generate` is the provider: `response.text()`
   * of one call, or the error it throws.  `typeError` is the engine's
   * message for calling `toLowerCase` on a missing message.  `calls` lists
   * the calls made, in order.
   */
  method Post(body: Outcome<TextRequest>, envKey: Option<string>, generate: ModelCall -> CallOutcome<string>, typeError: string)
    returns (resp: HttpResponse, calls: seq<ModelCall>)
    ensures body.Err? ==> resp == HttpResponse(500, ErrorBody(body.message)) && calls == []
    ensures body.Ok? && ResolveApiKey(body.value.apiKey, envKey).None? ==> resp == KEY_REQUIRED && calls == []
    ensures body.Ok? && ResolveApiKey(body.value.apiKey, envKey).Some? ==>
      var req := body.value;
      && 1 <= |calls| <= 2
      && calls[0].model == PRIMARY_MODEL
      && calls[0].apiKey == ResolveApiKey(req.apiKey, envKey).value
      && (Truthy(req.image) && Truthy(req.mimeType) ==>
            calls[0].content == [PromptText(req.prompt), InlineData(req.image.value, req.mimeType.value)])
      && (!(Truthy(req.image) && Truthy(req.mimeType)) ==> calls[0].content == [PromptText(req.prompt)])
    ensures |calls| >= 1 ==> match generate(calls[0])
      case Answered(t) => |calls| == 1 && resp == HttpResponse(200, TextBody(t))
      case Threw(None) => |calls| == 1 && resp == HttpResponse(500, ErrorBody(typeError))
      case Threw(Some(m)) =>
        if !IsQuotaError(m) then |calls| == 1 && resp == HttpResponse(500, ErrorBody(m))
        else
          && |calls| == 2
          && calls[1] == calls[0].(model := FALLBACK_MODEL)
          && resp == match generate(calls[1])
               case Answered(t) => HttpResponse(200, TextBody(t))
               case Threw(m2) => ServerError(m2)
  {
    calls := [];
    if body.Err? {
      return HttpResponse(500, ErrorBody(body.message)), calls;
    }
    var req := body.value;
    var finalApiKey := ResolveApiKey(req.apiKey, envKey);
    if finalApiKey.None? {
      return KEY_REQUIRED, calls;
    }
    var text := "";
    var content := BuildContent(req);
    var primary := ModelCall(finalApiKey.value, PRIMARY_MODEL, content);
    calls := [primary];
    var primaryResult := generate(primary);
    match primaryResult {
      case Answered(t) =>
        text := t;
      case Threw(None) =>
        return HttpResponse(500, ErrorBody(typeError)), calls;
      case Threw(Some(primaryError)) =>
        if IsQuotaError(primaryError) {
          var fallbackContent := BuildContent(req);
          var fallback := ModelCall(finalApiKey.value, FALLBACK_MODEL, fallbackContent);
          calls := calls + [fallback];
          var fallbackResult := generate(fallback);
          match fallbackResult {
            case Answered(t) => text := t;
            case Threw(fallbackError) => return ServerError(fallbackError), calls;
          }
        } else {
          return HttpResponse(500, ErrorBody(primaryError)), calls;
        }
    }
    resp := HttpResponse(200, TextBody(text));
  }
}
