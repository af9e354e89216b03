/**
 * The model-calling logic of the legacy Streamlit app: the generic fallback
 * chain, the single-part image parser, the model-catalog filter, the ordered
 * fallback lists built from the settings, and the navigation bar.
 *
 * The provider is an oracle `call` that says, for each model id, whether
 * `GenerativeModel(id).generate_content(prompt)` returns a response or
 * raises; the prompt is fixed for one chain, so it is not a parameter.
 */
module LegacyApp {
  import opened Wrappers
  import opened Strings
  import opened Sorting
  import opened LegacySession

  // ---------------------------------------------------------------------------
  // generate_with_fallback

  /** What `generate_with_fallback` raises. */
  datatype RaisedError = NoModelsAvailable | ProviderError(message: string)

  /** The exception's `str()`, as the callers show it with `st.error`. */
  function ErrorText(e: RaisedError): string {
    match e
    case NoModelsAvailable => "No models available."
    case ProviderError(m) => m
  }

  /** The response together with the name of the model that produced it, or the exception. */
  datatype FallbackResult<R> = Returned(response: R, model: ModelId) | Raised(error: RaisedError)

  /**
   * Reference definition of the chain: the first model whose call does not
   * raise wins; once the list is exhausted the last model's error is raised.
   */
  function Chain<R>(models: seq<ModelId>, call: ModelId -> Outcome<R>): FallbackResult<R>
    decreases |models|
  {
    if models == [] then Raised(NoModelsAvailable)
    else match call(models[0])
      case Ok(resp) => Returned(resp, models[0])
      case Err(m) => if |models| == 1 then Raised(ProviderError(m)) else Chain(models[1..], call)
  }

  /** The chain returns the first success, with its model's name. */
  lemma {:induction false} ChainFirstSuccess<R>(models: seq<ModelId>, call: ModelId -> Outcome<R>, k: nat)
    requires k < |models| && call(models[k]).Ok?
    requires forall j :: 0 <= j < k ==> call(models[j]).Err?
    ensures Chain(models, call) == Returned(call(models[k]).value, models[k])
    decreases k
  {
    if k > 0 {
      assert call(models[0]).Err?;
      ChainFirstSuccess(models[1..], call, k - 1);
    }
  }

  /** When every model raises, the error of the last model tried is raised. */
  lemma {:induction false} ChainExhausted<R>(models: seq<ModelId>, call: ModelId -> Outcome<R>)
    requires models != []
    requires forall j :: 0 <= j < |models| ==> call(models[j]).Err?
    ensures Chain(models, call) == Raised(ProviderError(call(models[|models| - 1]).message))
    decreases |models|
  {
    if |models| > 1 {
      assert call(models[0]).Err?;
      ChainExhausted(models[1..], call);
    }
  }

  /** The chain never raises "No models available." for a non-empty list. */
  lemma {:induction false} ChainOnlyEmptyListHasNoModels<R>(models: seq<ModelId>, call: ModelId -> Outcome<R>)
    ensures Chain(models, call) == Raised(NoModelsAvailable) <==> models == []
    decreases |models|
  {
    if |models| > 1 {
      ChainOnlyEmptyListHasNoModels(models[1..], call);
    }
  }

  /**
   * `generate_with_fallback(model_names, prompt)`.  Besides the result it
   * returns `tried`, the models the provider was asked, in order.
   */
  method GenerateWithFallback<R>(models: seq<ModelId>, call: ModelId -> Outcome<R>)
    returns (r: FallbackResult<R>, tried: seq<ModelId>)
    ensures r == Chain(models, call)
    ensures |tried| <= |models| && tried == models[..|tried|]
    ensures forall j :: 0 <= j < |tried| - 1 ==> call(tried[j]).Err?
    ensures models == [] ==> tried == []
    ensures r.Returned? ==> tried != [] && r.model == tried[|tried| - 1] && call(r.model) == Ok(r.response)
    ensures r.Raised? ==> tried == models
  {
    tried := [];
    if models == [] {
      return Raised(NoModelsAvailable), tried;
    }
    var lastError: Option<string> := None;
    var i := 0;
    while i < |models|
      invariant 0 <= i <= |models|
      invariant tried == models[..i]
      invariant forall j :: 0 <= j < i ==> call(models[j]).Err?
      invariant i > 0 ==> lastError == Some(call(models[i - 1]).message)
      invariant i < |models| ==> Chain(models, call) == Chain(models[i..], call)
      invariant i == |models| ==> Chain(models, call) == Raised(ProviderError(call(models[i - 1]).message))
    {
      tried := tried + [models[i]];
      var outcome := call(models[i]);
      match outcome {
        case Ok(resp) =>
          assert tried == models[..i + 1];
          return Returned(resp, models[i]), tried;
        case Err(m) =>
          lastError := Some(m);
          if i + 1 < |models| {
            assert models[i..][1..] == models[i + 1..];
          }
      }
      i := i + 1;
    }
    r := Raised(ProviderError(lastError.value));
  }

  // ---------------------------------------------------------------------------
  // parse_image_response

  datatype SdkBlob = SdkBlob(data: seq<bv8>)
  /** One content part of an SDK response; `inline_data` may be missing. */
  datatype SdkPart = SdkPart(inlineData: Option<SdkBlob>)
  /** A response: its `parts` (empty when the attribute is missing) and whether `hasattr(response, 'text')`. */
  datatype SdkResponse = SdkResponse(parts: seq<SdkPart>, hasText: bool)

  /** The image, Python's None, or the RuntimeError's message. */
  datatype ParsedImage = Parsed(picture: Picture) | NoImage | ParseFailed(message: string)

  const PARSE_FAILURE_PREFIX := "Failed to parse image from response: "
  const TEXT_NOT_IMAGE := "Response is text, not image."
  /** CPython's message for `None.data`. */
  const MISSING_INLINE_DATA := "'NoneType' object has no attribute 'data'"

  /**
   * `parse_image_response(response)`.  `open` stands for
   * `Image.open(io.BytesIO(data))`: a decoded picture or PIL's error message.
   */
  function ParseImageResponse(resp: SdkResponse, open: seq<bv8> -> Outcome<Picture>): (p: ParsedImage)
    ensures p.Parsed? <==>
      resp.parts != [] && resp.parts[0].inlineData.Some? && open(resp.parts[0].inlineData.value.data).Ok?
    ensures p.Parsed? ==> p.picture == open(resp.parts[0].inlineData.value.data).value
    ensures p.NoImage? <==> resp.parts == [] && !resp.hasText
    ensures p.ParseFailed? ==> StartsWith(p.message, PARSE_FAILURE_PREFIX)
    ensures resp.parts == [] && resp.hasText ==> p == ParseFailed(PARSE_FAILURE_PREFIX + TEXT_NOT_IMAGE)
  {
    if resp.parts != [] then
      match resp.parts[0].inlineData
      case None => ParseFailed(PARSE_FAILURE_PREFIX + MISSING_INLINE_DATA)
      case Some(blob) =>
        match open(blob.data)
        case Ok(pic) => Parsed(pic)
        case Err(m) => ParseFailed(PARSE_FAILURE_PREFIX + m)
    else if resp.hasText then ParseFailed(PARSE_FAILURE_PREFIX + TEXT_NOT_IMAGE)
    else NoImage
  }

  /** What one draft or final image step leaves: the stored `draft_image` / `final_image`, or the error shown. */
  datatype ImageStep = StoredImage(image: Option<Picture>) | ShownError(text: string)

  function ImageStepOf(r: FallbackResult<SdkResponse>, open: seq<bv8> -> Outcome<Picture>): ImageStep {
    match r
    case Raised(e) => ShownError(ErrorText(e))
    case Returned(resp, _) =>
      match ParseImageResponse(resp, open)
      case Parsed(pic) => StoredImage(Some(pic))
      case NoImage => StoredImage(None)
      case ParseFailed(m) => ShownError(m)
  }

  /**
   * The draft and final image steps: run the image fallback chain, then
   * parse the winning response.  Parsing happens after the chain has
   * returned, so a text reply from the first model ends the step with a
   * parse error and no later model is asked.
   */
  method GenerateImageStep(models: seq<ModelId>, call: ModelId -> Outcome<SdkResponse>, open: seq<bv8> -> Outcome<Picture>)
    returns (step: ImageStep, tried: seq<ModelId>)
    ensures step == ImageStepOf(Chain(models, call), open)
    ensures models != [] && call(models[0]).Ok? && call(models[0]).value.parts == [] && call(models[0]).value.hasText
      ==> tried == [models[0]] && step == ShownError(PARSE_FAILURE_PREFIX + TEXT_NOT_IMAGE)
  {
    var r;
    r, tried := GenerateWithFallback(models, call);
    step := match r
      case Raised(e) => ShownError(ErrorText(e))
      case Returned(resp, _) =>
        match ParseImageResponse(resp, open)
        case Parsed(pic) => StoredImage(Some(pic))
        case NoImage => StoredImage(None)
        case ParseFailed(m) => ShownError(m);
  }

  // ---------------------------------------------------------------------------
  // get_available_models

  datatype ModelInfo = ModelInfo(name: string, supportedGenerationMethods: seq<string>)
  /** `genai.list_models()`: the listing, or an exception (from it or from `configure`). */
  datatype Listing = Listed(models: seq<ModelInfo>) | ListingFailed

  /** `m.name.replace("models/", "")`. */
  function ShortName(name: string): string {
    RemoveAll(name, "models/")
  }

  predicate SupportsGenerateContent(m: ModelInfo) {
    "generateContent" in m.supportedGenerationMethods
  }

  /** Reference definition: the short names of the models that support generateContent, in listing order. */
  function CatalogFilter(infos: seq<ModelInfo>): seq<string>
    decreases |infos|
  {
    if infos == [] then []
    else (if SupportsGenerateContent(infos[0]) then [ShortName(infos[0].name)] else []) + CatalogFilter(infos[1..])
  }

  /** Filtering a listing piecewise gives the same, in the same order. */
  lemma {:induction false} CatalogFilterAppend(a: seq<ModelInfo>, b: seq<ModelInfo>)
    ensures CatalogFilter(a + b) == CatalogFilter(a) + CatalogFilter(b)
    decreases |a|
  {
    if a != [] {
      var head := if SupportsGenerateContent(a[0]) then [ShortName(a[0].name)] else [];
      assert (a + b)[0] == a[0];
      assert (a + b)[1..] == a[1..] + b;
      CatalogFilterAppend(a[1..], b);
      calc {
        CatalogFilter(a + b);
        head + CatalogFilter(a[1..] + b);
        head + (CatalogFilter(a[1..]) + CatalogFilter(b));
        (head + CatalogFilter(a[1..])) + CatalogFilter(b);
        CatalogFilter(a) + CatalogFilter(b);
      }
    } else {
      assert a + b == b;
    }
  }

  /** A name is offered exactly when some listed model that supports generateContent has it as its short name. */
  lemma {:induction false} CatalogFilterMembers(infos: seq<ModelInfo>, n: string)
    ensures n in CatalogFilter(infos) <==>
      exists i :: 0 <= i < |infos| && SupportsGenerateContent(infos[i]) && ShortName(infos[i].name) == n
    decreases |infos|
  {
    if infos != [] {
      CatalogFilterMembers(infos[1..], n);
      if n in CatalogFilter(infos[1..]) {
        var i :| 0 <= i < |infos[1..]| && SupportsGenerateContent(infos[1..][i]) && ShortName(infos[1..][i].name) == n;
        assert infos[i + 1] == infos[1..][i];
      }
      if exists i :: 0 <= i < |infos| && SupportsGenerateContent(infos[i]) && ShortName(infos[i].name) == n {
        var i :| 0 <= i < |infos| && SupportsGenerateContent(infos[i]) && ShortName(infos[i].name) == n;
        if i > 0 { assert infos[1..][i - 1] == infos[i]; }
      }
    }
  }

  /** The API's `models/<id>` names come out as `<id>`. */
  lemma ShortNameStripsPrefix(id: string)
    requires !Contains(id, "models/")
    ensures ShortName("models/" + id) == id
  {
    var n := "models/" + id;
    assert n[..7] == "models/";
    assert n[7..] == id;
    RemoveAllAbsent(id, "models/");
  }

  /** `get_available_models(api_key_input)` (without its five-minute cache). */
  method GetAvailableModels(apiKey: string, listing: Listing) returns (models: seq<string>)
    ensures apiKey == "" || listing.ListingFailed? ==> models == []
    ensures apiKey != "" && listing.Listed? ==> models == CatalogFilter(listing.models)
  {
    if apiKey == "" { return []; }
    match listing {
      case ListingFailed => return [];
      case Listed(infos) =>
        models := [];
        var i := 0;
        while i < |infos|
          invariant 0 <= i <= |infos|
          invariant models == CatalogFilter(infos[..i])
        {
          var m := infos[i];
          CatalogFilterAppend(infos[..i], [m]);
          assert infos[..i + 1] == infos[..i] + [m];
          if SupportsGenerateContent(m) {
            models := models + [ShortName(m.name)];
          }
          i := i + 1;
        }
        assert infos[..i] == infos;
    }
  }

  // ---------------------------------------------------------------------------
  // Model settings: options, selection clamp and fallback lists

  const DEFAULT_TEXT_OPTIONS: seq<ModelId> := ["gemini-2.5-pro", "gemini-3-pro-preview", "gemini-2.5-flash"]
  const IMAGE_OPTIONS: seq<ModelId> := ["nano-banana-pro-preview", "gemini-3-pro-image-preview", "gemini-2.5-flash-image", "gemini-2.0-flash-exp"]

  /** `sorted(fetched) if fetched else default_txt`. */
  function TextOptions(fetched: seq<ModelId>): (opts: seq<ModelId>)
    ensures opts != []
    ensures fetched != [] ==> SortedBy(opts, (m: ModelId) => m) && multiset(opts) == multiset(fetched)
    ensures fetched == [] ==> opts == DEFAULT_TEXT_OPTIONS
  {
    if fetched != [] then SortBy(fetched, (m: ModelId) => m) else DEFAULT_TEXT_OPTIONS
  }

  /** The stored selection if it is still offered, otherwise the first option. */
  function ClampSelection(current: ModelId, opts: seq<ModelId>): (sel: ModelId)
    requires opts != []
    ensures sel in opts
    ensures current in opts ==> sel == current
    ensures current !in opts ==> sel == opts[0]
  {
    if current in opts then current else opts[0]
  }

  /** `[m for m in opts if m != x]`. */
  function Without(opts: seq<ModelId>, x: ModelId): (r: seq<ModelId>)
    ensures x !in r
    decreases |opts|
  {
    if opts == [] then []
    else (if opts[0] != x then [opts[0]] else []) + Without(opts[1..], x)
  }

  lemma {:induction false} WithoutMultiset(opts: seq<ModelId>, x: ModelId)
    ensures multiset(Without(opts, x)) == multiset(opts)[x := 0]
    decreases |opts|
  {
    if opts != [] {
      WithoutMultiset(opts[1..], x);
      assert opts == [opts[0]] + opts[1..];
      assert multiset(opts) == multiset{opts[0]} + multiset(opts[1..]);
    }
  }

  /** `[selected] + [m for m in opts if m != selected]`. */
  function FallbackOrder(selected: ModelId, opts: seq<ModelId>): seq<ModelId> {
    [selected] + Without(opts, selected)
  }

  predicate NoDuplicates(s: seq<ModelId>) {
    forall i, j :: 0 <= i < j < |s| ==> s[i] != s[j]
  }

  /**
   * The fallback list starts with the selection, which appears once, and
   * otherwise holds exactly the options; with distinct options and a
   * selection among them it is a permutation of the options.
   */
  lemma FallbackOrderPermutes(selected: ModelId, opts: seq<ModelId>)
    requires selected in opts
    ensures FallbackOrder(selected, opts)[0] == selected
    ensures multiset(FallbackOrder(selected, opts)) == multiset(opts)[selected := 1]
    ensures NoDuplicates(opts) ==>
      multiset(FallbackOrder(selected, opts)) == multiset(opts) && |FallbackOrder(selected, opts)| == |opts|
  {
    WithoutMultiset(opts, selected);
    var r := FallbackOrder(selected, opts);
    assert multiset(r) == multiset{selected} + multiset(Without(opts, selected));
    if NoDuplicates(opts) {
      var k :| 0 <= k < |opts| && opts[k] == selected;
      assert multiset(opts)[selected] == 1 by { DistinctCount(opts, k); }
      assert multiset(opts)[selected := 1] == multiset(opts);
      assert |r| == |multiset(r)| == |multiset(opts)| == |opts|;
    }
  }

  lemma {:induction false} DistinctCount(s: seq<ModelId>, k: nat)
    requires k < |s| && NoDuplicates(s)
    ensures multiset(s)[s[k]] == 1
    decreases |s|
  {
    assert s == [s[0]] + s[1..];
    assert multiset(s) == multiset{s[0]} + multiset(s[1..]);
    if k == 0 {
      assert s[0] !in s[1..];
    } else {
      assert forall i, j :: 0 <= i < j < |s[1..]| ==> s[1..][i] != s[1..][j] by {
        forall i, j | 0 <= i < j < |s[1..]| ensures s[1..][i] != s[1..][j] {
          assert s[1..][i] == s[i + 1] && s[1..][j] == s[j + 1];
        }
      }
      assert s[1..][k - 1] == s[k];
      DistinctCount(s[1..], k - 1);
    }
  }

  /** What the settings popover fetches: the catalog when there is a key and the listing succeeds, else nothing. */
  function Fetched(apiKey: string, listing: Listing): seq<ModelId> {
    if apiKey != "" && listing.Listed? then CatalogFilter(listing.models) else []
  }

  /**
   * What `st.selectbox(label, opts, index=opts.index(current))` returns: the
   * option the user picked (`pick`), or, when the widget was left alone,
   * the preselected option, which is the clamped current selection.
   */
  function SelectboxValue(pick: Option<ModelId>, current: ModelId, opts: seq<ModelId>): (sel: ModelId)
    requires opts != []
    requires pick.Some? ==> pick.value in opts
    ensures sel in opts
    ensures pick.Some? ==> sel == pick.value
    ensures pick.None? && current in opts ==> sel == current
    ensures pick.None? && current !in opts ==> sel == opts[0]
  {
    if pick.Some? then pick.value else ClampSelection(current, opts)
  }

  /**
   * The text half of the popover (app.py lines 340-345, 350-352 and 359):
   * the options come from the catalog, or the defaults when it lists
   * nothing; the select box yields `textPick`, or the clamped current
   * selection when the widget was left alone; the fallback list is headed
   * by what it yields.
   */
  method SelectTextModel(s: SessionState, apiKey: string, listing: Listing, textPick: Option<ModelId>)
    requires textPick.Some? ==> textPick.value in TextOptions(Fetched(apiKey, listing))
    modifies s`selectedTextModel, s`fallbackListText
    ensures s.selectedTextModel == SelectboxValue(textPick, old(s.selectedTextModel), TextOptions(Fetched(apiKey, listing)))
    ensures s.fallbackListText == FallbackOrder(s.selectedTextModel, TextOptions(Fetched(apiKey, listing)))
  {
    var fetched: seq<ModelId> := [];
    if apiKey != "" {
      fetched := GetAvailableModels(apiKey, listing);
    }
    var optsTxt := TextOptions(fetched);
    var txt := SelectboxValue(textPick, s.selectedTextModel, optsTxt);
    s.selectedTextModel := txt;
    s.fallbackListText := FallbackOrder(txt, optsTxt);
  }

  /**
   * The image half of the popover (app.py lines 347, 354-356 and 360): the
   * four fixed options, the selection and the fallback list headed by it.
   */
  method SelectImageModel(s: SessionState, imagePick: Option<ModelId>)
    requires imagePick.Some? ==> imagePick.value in IMAGE_OPTIONS
    modifies s`selectedImageModel, s`fallbackListImage
    ensures s.selectedImageModel == SelectboxValue(imagePick, old(s.selectedImageModel), IMAGE_OPTIONS)
    ensures s.fallbackListImage == FallbackOrder(s.selectedImageModel, IMAGE_OPTIONS)
  {
    var img := SelectboxValue(imagePick, s.selectedImageModel, IMAGE_OPTIONS);
    s.selectedImageModel := img;
    s.fallbackListImage := FallbackOrder(img, IMAGE_OPTIONS);
  }

  /**
   * The settings popover (app.py lines 340-360): the options, the values the
   * two select boxes return (`textPick` and `imagePick` are the user's
   * choices, `None` when a widget was left alone), and the fallback lists
   * headed by those values.
   */
  method UpdateModelSettings(s: SessionState, apiKey: string, listing: Listing, textPick: Option<ModelId>, imagePick: Option<ModelId>)
    requires textPick.Some? ==> textPick.value in TextOptions(Fetched(apiKey, listing))
    requires imagePick.Some? ==> imagePick.value in IMAGE_OPTIONS
    modifies s`selectedTextModel, s`selectedImageModel, s`fallbackListText, s`fallbackListImage
    ensures s.selectedTextModel == SelectboxValue(textPick, old(s.selectedTextModel), TextOptions(Fetched(apiKey, listing)))
    ensures s.fallbackListText == FallbackOrder(s.selectedTextModel, TextOptions(Fetched(apiKey, listing)))
    ensures s.selectedImageModel == SelectboxValue(imagePick, old(s.selectedImageModel), IMAGE_OPTIONS)
    ensures s.fallbackListImage == FallbackOrder(s.selectedImageModel, IMAGE_OPTIONS)
  {
    SelectTextModel(s, apiKey, listing, textPick);
    ghost var text, fallbackText := s.selectedTextModel, s.fallbackListText;
    SelectImageModel(s, imagePick);
    assert s.selectedTextModel == text && s.fallbackListText == fallbackText;
  }

  /** Whichever image model is selected, the image fallback list is a permutation of the four image options. */
  lemma ImageFallbackIsPermutation(selected: ModelId)
    requires selected in IMAGE_OPTIONS
    ensures FallbackOrder(selected, IMAGE_OPTIONS)[0] == selected
    ensures multiset(FallbackOrder(selected, IMAGE_OPTIONS)) == multiset(IMAGE_OPTIONS)
    ensures |FallbackOrder(selected, IMAGE_OPTIONS)| == |IMAGE_OPTIONS|
  {
    assert NoDuplicates(IMAGE_OPTIONS) by {
      forall i, j | 0 <= i < j < |IMAGE_OPTIONS| ensures IMAGE_OPTIONS[i] != IMAGE_OPTIONS[j] {
        assert IMAGE_OPTIONS[i][..5] != IMAGE_OPTIONS[j][..5] || IMAGE_OPTIONS[i][..12] != IMAGE_OPTIONS[j][..12]
          || |IMAGE_OPTIONS[i]| != |IMAGE_OPTIONS[j]|;
      }
    }
    FallbackOrderPermutes(selected, IMAGE_OPTIONS);
  }

  /**
   * The fallback order keeps the options' order: removing the selection
   * from a concatenation removes it from each part.
   */
  lemma {:induction false} WithoutAppend(a: seq<ModelId>, b: seq<ModelId>, x: ModelId)
    ensures Without(a + b, x) == Without(a, x) + Without(b, x)
    decreases |a|
  {
    if a == [] {
      assert a + b == b;
    } else {
      assert (a + b)[0] == a[0] && (a + b)[1..] == a[1..] + b;
      WithoutAppend(a[1..], b, x);
    }
  }

  /** A selection that is not among the options removes nothing: the options come back in their order. */
  lemma {:induction false} WithoutAbsent(opts: seq<ModelId>, x: ModelId)
    requires x !in opts
    ensures Without(opts, x) == opts
    decreases |opts|
  {
    if opts != [] {
      WithoutAbsent(opts[1..], x);
      assert opts == [opts[0]] + opts[1..];
    }
  }

  // ---------------------------------------------------------------------------
  // render_progress_bar

  const PHASE_KEYS: seq<string> := ["input", "struct", "draft", "design"]

  /** A step's button is enabled when the step is completed or active: `not (is_completed or is_active)` is false. */
  function NavButtonEnabled(stepNum: int, currentStep: int): (enabled: bool)
    ensures enabled <==> stepNum <= currentStep
  {
    stepNum < currentStep || stepNum == currentStep
  }

  /**
   * A press on the `i`-th button of `render_progress_bar(currentStep)`: a
   * disabled button cannot be pressed, pressing the active step changes
   * nothing, and pressing a completed step moves to that step's phase.
   */
  method NavButtonPressed(s: SessionState, i: nat, currentStep: int)
    requires i < |PHASE_KEYS|
    modifies s`phase
    ensures s.phase == (if i + 1 < currentStep then PHASE_KEYS[i] else old(s.phase))
  {
    var stepNum := i + 1;
    var isActive := stepNum == currentStep;
    if NavButtonEnabled(stepNum, currentStep) && !isActive {
      s.phase := PHASE_KEYS[i];
    }
  }
}
