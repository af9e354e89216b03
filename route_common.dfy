/**
 * What the two Next.js API routes share: the API-key fallback, the request
 * contents handed to the model, one model call, and the JSON bodies the
 * routes answer with (which the page consumes).
 */
module RouteCommon {
  import opened Wrappers
  import opened Strings

  /** A JavaScript string is truthy when it is not empty. */
  predicate Truthy(v: Option<string>) {
    v.Some? && v.value != ""
  }

  /**
   * `apiKey || process.env.GEMINI_API_KEY`, with `None` standing for every
   * falsy outcome (missing, null or empty in both places).
   */
  function ResolveApiKey(bodyKey: Option<string>, envKey: Option<string>): (k: Option<string>)
    ensures k.Some? <==> Truthy(bodyKey) || Truthy(envKey)
    ensures k.Some? ==> k.value != ""
    ensures Truthy(bodyKey) ==> k == bodyKey
    ensures !Truthy(bodyKey) && Truthy(envKey) ==> k == envKey
  {
    if Truthy(bodyKey) then bodyKey
    else if Truthy(envKey) then envKey
    else None
  }

  /** One element of the `generateContent` argument: the prompt string or an `inlineData` object. */
  datatype ContentItem = PromptText(text: string) | InlineData(data: string, mimeType: string)

  /** One `getGenerativeModel({model}).generateContent(content)` made with a key. */
  datatype ModelCall = ModelCall(apiKey: string, model: ModelId, content: seq<ContentItem>)

  /** The JSON bodies the routes produce, plus the `svg` shape the page is prepared for. */
  datatype Body =
    | ImageBody(mimeType: string, data: string)   // {type: "image", mimeType, data}
    | SvgBody(content: string)                    // {type: "svg", content}
    | TextContentBody(content: string)            // {type: "text", content}
    | EmptyBody                                   // {}
    | TextBody(text: string)                      // {text}
    | ErrorBody(error: string)                    // {error}

  datatype HttpResponse = HttpResponse(status: int, body: Body)

  const KEY_REQUIRED := HttpResponse(400, ErrorBody("API Key is required"))

  /**
   * What one `generateContent` call yields: the reply, or a thrown error
   * whose `message` is a string or missing.
   */
  datatype CallOutcome<+R> = Answered(value: R) | Threw(message: Option<string>)

  /**
   * The routes' outer `catch`: `NextResponse.json({ error: error.message },
   * { status: 500 })`.  A missing message is dropped by JSON serialisation,
   * so the body is then `{}`.
   */
  function ServerError(message: Option<string>): (resp: HttpResponse)
    ensures resp.status == 500
    ensures resp.body.ErrorBody? <==> message.Some?
    ensures message.Some? ==> resp.body.error == message.value
    ensures message.None? ==> resp.body == EmptyBody
  {
    match message
    case Some(m) => HttpResponse(500, ErrorBody(m))
    case None => HttpResponse(500, EmptyBody)
  }
}
