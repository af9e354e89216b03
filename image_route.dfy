/**
 * `POST /api/generate-image`: key fallback, request contents (the prompt and
 * one inline part per reference image), a single call to one model, and the
 * classification of the reply by its first part.
 */
module ImageRoute {
  import opened Wrappers
  import opened Strings
  import opened RouteCommon

  const IMAGE_MODEL: ModelId := "gemini-2.0-flash-exp"
  /** Declared by the route and never consulted: there is no fallback. */
  const IMAGE_MODELS: seq<ModelId> := ["gemini-2.0-flash-exp", "gemini-1.5-pro"]

  datatype RefImage = RefImage(data: string, mimeType: string)

  /**
   * The request body.  `refImages` is `None` when it is missing or not an
   * array; an element is `None` when it is `null` or `undefined`.
   */
  datatype ImageRequest = ImageRequest(apiKey: Option<string>, prompt: string, refImages: Option<seq<Option<RefImage>>>)

  /** Some element of `refImages` is `null` or `undefined`, so reading its `data` throws. */
  predicate HasNullRef(refs: Option<seq<Option<RefImage>>>) {
    refs.Some? && exists i :: 0 <= i < |refs.value| && refs.value[i].None?
  }

  /** The prompt first, then one inline part per reference image, in order. */
  ghost predicate IsImageContent(content: seq<ContentItem>, prompt: string, refs: Option<seq<Option<RefImage>>>)
    requires !HasNullRef(refs)
  {
    var images := if refs.Some? then refs.value else [];
    && |content| == 1 + |images|
    && content[0] == PromptText(prompt)
    && forall i :: 0 <= i < |images| ==> content[i + 1] == InlineData(images[i].value.data, images[i].value.mimeType)
  }

  /**
   * `let content = [prompt]` followed by the `refImages.forEach(... content.push ...)`
   * loop; `None` when the loop reaches a `null` element and throws.
   */
  method BuildContent(prompt: string, refs: Option<seq<Option<RefImage>>>) returns (content: Option<seq<ContentItem>>)
    ensures content.None? <==> HasNullRef(refs)
    ensures content.Some? ==> IsImageContent(content.value, prompt, refs)
  {
    var built := [PromptText(prompt)];
    if refs.Some? {
      var images := refs.value;
      var i := 0;
      while i < |images|
        invariant 0 <= i <= |images|
        invariant forall j :: 0 <= j < i ==> images[j].Some?
        invariant |built| == 1 + i && built[0] == PromptText(prompt)
        invariant forall j :: 0 <= j < i ==> built[j + 1] == InlineData(images[j].value.data, images[j].value.mimeType)
      {
        if images[i].None? {
          return None;
        }
        built := built + [InlineData(images[i].value.data, images[i].value.mimeType)];
        i := i + 1;
      }
    }
    content := Some(built);
  }

  // The provider's reply, with every level that the route reaches through `?.` optional.
  datatype InlinePart = InlinePart(mimeType: string, data: string)
  datatype Part = Part(inlineData: Option<InlinePart>, text: Option<string>)
  datatype CandidateContent = CandidateContent(parts: Option<seq<Part>>)
  datatype Candidate = Candidate(content: Option<CandidateContent>)
  datatype GenResponse = GenResponse(candidates: Option<seq<Candidate>>)

  /** `candidates?.[0]?.content?.parts?.[0]`. */
  function FirstPart(r: GenResponse): Option<Part> {
    if r.candidates.Some? && r.candidates.value != []
       && r.candidates.value[0].content.Some?
       && r.candidates.value[0].content.value.parts.Some?
       && r.candidates.value[0].content.value.parts.value != []
    then Some(r.candidates.value[0].content.value.parts.value[0])
    else None
  }

  /**
   * The `returnData` branches: inline data wins over text, an empty or
   * missing text gives `{}`, and nothing else is ever produced.
   */
  function Classify(r: GenResponse): (b: Body)
    ensures b.ImageBody? || b.TextContentBody? || b.EmptyBody?
    ensures b.ImageBody? <==> FirstPart(r).Some? && FirstPart(r).value.inlineData.Some?
    ensures b.ImageBody? ==> b == ImageBody(FirstPart(r).value.inlineData.value.mimeType, FirstPart(r).value.inlineData.value.data)
    ensures b.TextContentBody? <==>
      FirstPart(r).Some? && FirstPart(r).value.inlineData.None? && Truthy(FirstPart(r).value.text)
    ensures b.TextContentBody? ==> b.content == FirstPart(r).value.text.value
  {
    match FirstPart(r)
    case None => EmptyBody
    case Some(p) =>
      if p.inlineData.Some? then ImageBody(p.inlineData.value.mimeType, p.inlineData.value.data)
      else if Truthy(p.text) then TextContentBody(p.text.value)
      else EmptyBody
  }

  /** Parts after the first, and candidates after the first, never matter. */
  lemma ClassifyReadsOnlyFirstPart(r1: GenResponse, r2: GenResponse)
    requires FirstPart(r1) == FirstPart(r2)
    ensures Classify(r1) == Classify(r2)
  {
  }

  /**
   * The route handler.  `body` is what `await req.json()` gives, or the
   * message it rejects with.  `generate` is the provider: the reply to one
   * call, or the error it throws.  `typeError` is the engine's message for
   * reading a member of `null`.  `calls` lists the calls made.
   */
  method Post(body: Outcome<ImageRequest>, envKey: Option<string>, generate: ModelCall -> CallOutcome<GenResponse>, typeError: string)
    returns (resp: HttpResponse, calls: seq<ModelCall>)
    ensures body.Err? ==> resp == HttpResponse(500, ErrorBody(body.message)) && calls == []
    ensures body.Ok? && ResolveApiKey(body.value.apiKey, envKey).None? ==> resp == KEY_REQUIRED && calls == []
    ensures body.Ok? && ResolveApiKey(body.value.apiKey, envKey).Some? && HasNullRef(body.value.refImages) ==>
      resp == HttpResponse(500, ErrorBody(typeError)) && calls == []
    ensures body.Ok? && ResolveApiKey(body.value.apiKey, envKey).Some? && !HasNullRef(body.value.refImages) ==>
      && |calls| == 1
      && calls[0].apiKey == ResolveApiKey(body.value.apiKey, envKey).value
      && calls[0].model == IMAGE_MODEL
      && IsImageContent(calls[0].content, body.value.prompt, body.value.refImages)
      && resp == match generate(calls[0])
           case Answered(r) => HttpResponse(200, Classify(r))
           case Threw(m) => ServerError(m)
    ensures !resp.body.SvgBody? && !resp.body.TextBody?
  {
    calls := [];
    if body.Err? {
      return HttpResponse(500, ErrorBody(body.message)), calls;
    }
    var req := body.value;
    var finalApiKey := ResolveApiKey(req.apiKey, envKey);
    if finalApiKey.None? {
      return KEY_REQUIRED, calls;
    }
    var content := BuildContent(req.prompt, req.refImages);
    if content.None? {
      return HttpResponse(500, ErrorBody(typeError)), calls;
    }
    var call := ModelCall(finalApiKey.value, IMAGE_MODEL, content.value);
    calls := [call];
    var result := generate(call);
    match result {
      case Threw(m) => resp := ServerError(m);
      case Answered(r) => resp := HttpResponse(200, Classify(r));
    }
  }
}
