/**
 * The client page of the Next.js app: a four-phase wizard (input, structure,
 * draft, design) whose handlers call the two API routes and step the page
 * state.  Each handler makes at most one request; its reply is a parameter
 * (`Err` when `fetch` or `res.json()` throws), and so is `JSON.parse`.
 */
module Wizard {
  import opened Wrappers
  import opened Strings
  import opened RouteCommon

  // ---------------------------------------------------------------------------
  // Phases and the progress bar

  datatype Phase = Input | Struct | Draft | Design

  /** `phaseOrder` of the progress bar; also the order of its steps. */
  const PHASE_ORDER: seq<Phase> := [Input, Struct, Draft, Design]

  /** `phaseOrder.indexOf(phase)`: every phase is listed, so it is never -1. */
  function PhaseIndex(p: Phase): (i: nat)
    ensures i < |PHASE_ORDER| && PHASE_ORDER[i] == p
  {
    match p
    case Input => 0
    case Struct => 1
    case Draft => 2
    case Design => 3
  }

  /** `isClickable` of the `idx`-th step: it lies before the current phase. */
  predicate IsClickable(idx: nat, current: Phase) {
    idx < PhaseIndex(current)
  }

  /**
   * Only steps that were already passed are clickable: never the active
   * step, never a later one, none in the input phase and all but the last
   * in the design phase.
   */
  lemma ClickableOnlyBackwards(idx: nat, current: Phase)
    requires idx < |PHASE_ORDER|
    ensures IsClickable(idx, current) <==> PHASE_ORDER[idx] != current && PhaseIndex(PHASE_ORDER[idx]) < PhaseIndex(current)
    ensures !IsClickable(PhaseIndex(current), current)
    ensures current == Input ==> !IsClickable(idx, current)
    ensures current == Design ==> (IsClickable(idx, current) <==> idx < 3)
  {
    assert PhaseIndex(PHASE_ORDER[idx]) == idx;
  }

  // ---------------------------------------------------------------------------
  // Cleaning the model's JSON reply

  /** `text.replace(/```json/g, '').replace(/```/g, '').trim()`. */
  function CleanJson(text: string): string {
    Trim(RemoveAll(RemoveAll(text, "```json"), "```"))
  }

  /** No code fence survives the cleaning. */
  lemma CleanJsonHasNoFence(text: string)
    ensures !Contains(CleanJson(text), "```")
  {
    var r := RemoveAll(RemoveAll(text, "```json"), "```");
    RemoveAllFenceLeavesNone(RemoveAll(text, "```json"));
    TrimKeepsAbsent(r, "```");
  }

  /** Cleaning an already cleaned reply changes nothing. */
  lemma CleanJsonIdempotent(text: string)
    ensures CleanJson(CleanJson(text)) == CleanJson(text)
  {
    var r := RemoveAll(RemoveAll(text, "```json"), "```");
    var c := Trim(r);
    CleanJsonHasNoFence(text);
    assert !Contains(c, "```");
    NoFenceNoJsonFence(c);
    RemoveAllAbsent(c, "```json");
    RemoveAllAbsent(c, "```");
    assert RemoveAll(RemoveAll(c, "```json"), "```") == c;
    TrimIdempotent(r);
  }

  /** A text without "```" has no "```json" either. */
  lemma NoFenceNoJsonFence(c: string)
    requires !Contains(c, "```")
    ensures !Contains(c, "```json")
  {
    if Contains(c, "```json") {
      assert "```json" == "```" + "json";
      ContainsLonger(c, "```", "json");
    }
  }

  // ---------------------------------------------------------------------------
  // Page state

  datatype Step = Step(labelText: string, visualDesc: string)

  /** The `DraftData` interface: every member is optional. */
  datatype DraftData = DraftData(
    mainTitle: Option<string>,
    summary: Option<string>,
    recommendedStyle: Option<string>,
    archetypeName: Option<string>,
    steps: Option<seq<Step>>)

  const EMPTY_DRAFT := DraftData(None, None, None, None, None)

  /**
   * What a handler's `catch` receives: an `Error` whose message is known,
   * or a `TypeError` raised by reading a member of `undefined`, whose
   * wording belongs to the JavaScript engine.
   */
  datatype JsError = Thrown(message: string) | TypeFault

  /** One `alert(...)`: a text, or a prefix followed by a TypeError's engine-specific message. */
  datatype Alert = Message(text: string) | TypeFaultMessage(prefix: string)

  function AlertOf(prefix: string, e: JsError): Alert {
    match e
    case Thrown(m) => Message(prefix + m)
    case TypeFault => TypeFaultMessage(prefix)
  }

  // ---------------------------------------------------------------------------
  // What the handlers make of a route's reply

  /** `if (data.error) throw new Error(data.error)`. */
  predicate CarriesError(body: Body) {
    body.ErrorBody? && body.error != ""
  }

  /**
   * The structure handlers' reading of a `/api/generate-text` reply:
   * throw on an error, clean `data.text`, parse it.  A body without `text`
   * makes `data.text.replace` throw a TypeError.
   */
  function StructureReply(reply: Outcome<Body>, parse: string -> Outcome<DraftData>): (r: Result<DraftData, JsError>)
    ensures r.Success? <==> reply.Ok? && reply.value.TextBody? && parse(CleanJson(reply.value.text)).Ok?
    ensures r.Success? ==> r.value == parse(CleanJson(reply.value.text)).value
    ensures reply.Ok? && CarriesError(reply.value) ==> r == Failure(Thrown(reply.value.error))
  {
    match reply
    case Err(m) => Failure(Thrown(m))
    case Ok(body) =>
      if CarriesError(body) then Failure(Thrown(body.error))
      else if body.TextBody? then
        match parse(CleanJson(body.text))
        case Ok(d) => Success(d)
        case Err(m) => Failure(Thrown(m))
      else Failure(TypeFault)
  }

  /** What the image handlers do with a `/api/generate-image` reply. */
  datatype Dispatch = ShowImage(url: string) | NoImage(alert: string) | Fails(error: JsError)

  const NO_IMAGE_PREFIX := "モデルが画像を返しませんでした。テキスト: "

  /** `s.substring(0, n)`, counted in characters. */
  function Prefix(s: string, n: nat): (p: string)
    ensures |p| <= n && |p| <= |s| && p == s[..|p|]
    ensures |s| <= n ==> p == s
  {
    if |s| <= n then s else s[..n]
  }

  /**
   * The result-type dispatch of the draft and final handlers.  `svgBase64`
   * stands for `btoa(unescape(encodeURIComponent(content)))`; `limit` is the
   * length of the excerpt alerted when no image came back.  A body without
   * `content` makes `data.content.substring` throw a TypeError.
   */
  function DispatchReply(reply: Outcome<Body>, limit: nat, svgBase64: string -> string): (d: Dispatch)
    ensures reply.Ok? && CarriesError(reply.value) ==> d == Fails(Thrown(reply.value.error))
    ensures d.ShowImage? <==> reply.Ok? && (reply.value.ImageBody? || reply.value.SvgBody?)
    ensures reply.Ok? && reply.value.ImageBody? ==>
      d.url == "data:" + reply.value.mimeType + ";base64," + reply.value.data
    ensures reply.Ok? && reply.value.SvgBody? ==> d.url == "data:image/svg+xml;base64," + svgBase64(reply.value.content)
    ensures d.NoImage? <==> reply.Ok? && reply.value.TextContentBody?
    ensures d.NoImage? ==> d.alert == NO_IMAGE_PREFIX + Prefix(reply.value.content, limit) + "..."
  {
    match reply
    case Err(m) => Fails(Thrown(m))
    case Ok(body) =>
      if CarriesError(body) then Fails(Thrown(body.error))
      else match body
        case ImageBody(mimeType, data) => ShowImage("data:" + mimeType + ";base64," + data)
        case SvgBody(content) => ShowImage("data:image/svg+xml;base64," + svgBase64(content))
        case TextContentBody(content) => NoImage(NO_IMAGE_PREFIX + Prefix(content, limit) + "...")
        case _ => Fails(TypeFault)
  }

  /**
   * The image route never answers with an svg body, so on the page the
   * svg branch is dead: an image is shown exactly when the route answered
   * 200 with inline data.
   */
  lemma RouteRepliesNeverTakeSvgBranch(resp: HttpResponse, limit: nat, svgBase64: string -> string)
    requires !resp.body.SvgBody? && !resp.body.TextBody?
    ensures DispatchReply(Ok(resp.body), limit, svgBase64).ShowImage? <==> resp.body.ImageBody?
    ensures resp.body.EmptyBody? ==> DispatchReply(Ok(resp.body), limit, svgBase64) == Fails(TypeFault)
  {
  }

  // ---------------------------------------------------------------------------
  // Styles (`STYLE_PROMPTS` and `STYLE_ICONS` of the constants module)

  datatype StyleIcon = StyleIcon(icon: string, color: string)

  /** The keys of `STYLE_PROMPTS`, in declaration order (`Object.keys`). */
  const STYLE_PROMPT_KEYS: seq<string> := [
    "ビジネス・プロ (Business Pro)",
    "テック・フューチャー (Tech Future)",
    "フラット・モダン (Flat Modern)",
    "ホワイトボード (Whiteboard Sketch)",
    "ミニマル・ライン (Minimal Line)",
    "3Dアイソメトリック (3D Isometric)",
    "コミック・ストーリー (Comic Style)",
    "クレイ・3D (Clay 3D)",
    "ピクセル・レトロ (Pixel Retro)",
    "アーティスティック (Watercolor)"
  ]

  const STYLE_ICONS: map<string, StyleIcon> := map[
    "ビジネス・プロ (Business Pro)" := StyleIcon("💼", "#E0F2FE"),
    "テック・フューチャー (Tech Future)" := StyleIcon("👾", "#F3E8FF"),
    "フラット・モダン (Flat Modern)" := StyleIcon("🔷", "#F3F4F6"),
    "ホワイトボード (Whiteboard Sketch)" := StyleIcon("🖊️", "#FEF3C7"),
    "ミニマル・ライン (Minimal Line)" := StyleIcon("✒️", "#FFFFFF"),
    "3Dアイソメトリック (3D Isometric)" := StyleIcon("🧊", "#DBEAFE"),
    "コミック・ストーリー (Comic Style)" := StyleIcon("💬", "#FCE7F3"),
    "クレイ・3D (Clay 3D)" := StyleIcon("🧸", "#FFEDD5"),
    "ピクセル・レトロ (Pixel Retro)" := StyleIcon("🕹️", "#DCFCE7"),
    "アーティスティック (Watercolor)" := StyleIcon("🎨", "#FEF9C3")
  ]

  const DEFAULT_STYLE := "ビジネス・プロ (Business Pro)"

  /** Every style offered in the design phase has an icon entry, the default style included. */
  lemma EveryStyleHasIcon()
    ensures forall k :: k in STYLE_PROMPT_KEYS ==> k in STYLE_ICONS
    ensures DEFAULT_STYLE in STYLE_PROMPT_KEYS
  {
  }

  /**
   * The design-phase tiles: one per style, in order, each with the
   * `STYLE_ICONS` entry that the rendering reads `meta.color` from.
   */
  function StyleTiles(): (tiles: seq<StyleIcon>)
    ensures |tiles| == |STYLE_PROMPT_KEYS|
    ensures forall i :: 0 <= i < |tiles| ==> STYLE_PROMPT_KEYS[i] in STYLE_ICONS && tiles[i] == STYLE_ICONS[STYLE_PROMPT_KEYS[i]]
  {
    EveryStyleHasIcon();
    seq(|STYLE_PROMPT_KEYS|, i requires 0 <= i < |STYLE_PROMPT_KEYS| => STYLE_ICONS[STYLE_PROMPT_KEYS[i]])
  }

  // ---------------------------------------------------------------------------
  // The page component

  /** The guard of `generateStructure`: `!apiKey && inputText.length < 5`. */
  predicate TooShortWithoutKey(apiKey: string, inputText: string) {
    apiKey == "" && Utf16Length(inputText) < 5
  }

  class Page {
    var phase: Phase
    var apiKey: string
    var isSettingsOpen: bool
    var inputText: string
    var draftData: DraftData
    var retakeInstr: string
    var draftImage: Option<string>
    var finalImage: Option<string>
    var selectedStyle: string
    var loading: bool
    /** Every `alert` shown so far, oldest first. */
    var alerts: seq<Alert>

    /** The `useState` initial values. */
    constructor ()
      ensures phase == Input && apiKey == "" && !isSettingsOpen && inputText == ""
      ensures draftData == EMPTY_DRAFT && retakeInstr == "" && draftImage == None && finalImage == None
      ensures selectedStyle == DEFAULT_STYLE && !loading && alerts == []
    {
      phase := Input;
      apiKey := "";
      isSettingsOpen := false;
      inputText := "";
      draftData := EMPTY_DRAFT;
      retakeInstr := "";
      draftImage := None;
      finalImage := None;
      selectedStyle := DEFAULT_STYLE;
      loading := false;
      alerts := [];
    }

    /**
     * `generateStructure`.  Without a key and with fewer than five UTF-16
     * units of input it opens the settings and sends nothing; otherwise it
     * sends one request and, when the reply parses, stores the structure
     * and moves to the structure phase.
     */
    method GenerateStructure(reply: Outcome<Body>, parse: string -> Outcome<DraftData>) returns (requested: bool)
      modifies this`isSettingsOpen, this`loading, this`draftData, this`phase, this`alerts
      ensures requested <==> !TooShortWithoutKey(old(apiKey), old(inputText))
      ensures !requested ==>
        isSettingsOpen && phase == old(phase) && draftData == old(draftData) && loading == old(loading) && alerts == old(alerts)
      ensures requested ==> !loading && isSettingsOpen == old(isSettingsOpen)
      ensures requested && StructureReply(reply, parse).Success? ==>
        draftData == StructureReply(reply, parse).value && phase == Struct && alerts == old(alerts)
      ensures requested && StructureReply(reply, parse).Failure? ==>
        && draftData == old(draftData) && phase == old(phase)
        && alerts == old(alerts) + [AlertOf("Error: ", StructureReply(reply, parse).error)]
    {
      requested := !TooShortWithoutKey(apiKey, inputText);
      if !requested {
        isSettingsOpen := true;
      } else {
        loading := true;
        var r := StructureReply(reply, parse);
        if r.Success? {
          draftData := r.value;
          phase := Struct;
        } else {
          alerts := alerts + [AlertOf("Error: ", r.error)];
        }
        loading := false;
      }
    }

    /**
     * `updateStructure` (the retake): always sends one request; a parsed
     * reply replaces the structure and clears the retake instruction, and
     * the phase never changes.
     */
    method UpdateStructure(reply: Outcome<Body>, parse: string -> Outcome<DraftData>)
      modifies this`loading, this`draftData, this`retakeInstr, this`alerts
      ensures !loading
      ensures StructureReply(reply, parse).Success? ==>
        draftData == StructureReply(reply, parse).value && retakeInstr == "" && alerts == old(alerts)
      ensures StructureReply(reply, parse).Failure? ==>
        && draftData == old(draftData) && retakeInstr == old(retakeInstr)
        && alerts == old(alerts) + [AlertOf("", StructureReply(reply, parse).error)]
    {
      loading := true;
      var r := StructureReply(reply, parse);
      if r.Success? {
        draftData := r.value;
        retakeInstr := "";
      } else {
        alerts := alerts + [AlertOf("", r.error)];
      }
      loading := false;
    }

    /**
     * `generateDraft`.  Without a key it opens the settings and sends
     * nothing.  Otherwise it enters the draft phase before the request, so
     * the phase is `draft` whatever the reply; only an image or svg reply
     * replaces the draft image.
     */
    method GenerateDraft(reply: Outcome<Body>, svgBase64: string -> string) returns (requested: bool)
      modifies this`isSettingsOpen, this`loading, this`phase, this`draftImage, this`alerts
      ensures requested <==> old(apiKey) != ""
      ensures !requested ==>
        isSettingsOpen && phase == old(phase) && draftImage == old(draftImage) && loading == old(loading) && alerts == old(alerts)
      ensures requested ==> !loading && phase == Draft
      ensures requested ==> match DispatchReply(reply, 50, svgBase64)
        case ShowImage(url) => draftImage == Some(url) && alerts == old(alerts)
        case NoImage(text) => draftImage == old(draftImage) && alerts == old(alerts) + [Message(text)]
        case Fails(e) => draftImage == old(draftImage) && alerts == old(alerts) + [AlertOf("", e)]
    {
      if apiKey == "" {
        isSettingsOpen := true;
        return false;
      }
      requested := true;
      loading := true;
      phase := Draft;
      var d := DispatchReply(reply, 50, svgBase64);
      match d {
        case ShowImage(url) =>
          draftImage := Some(url);
          phase := Draft;
        case NoImage(text) =>
          alerts := alerts + [Message(text)];
          phase := Draft;
        case Fails(e) =>
          alerts := alerts + [AlertOf("", e)];
      }
      loading := false;
    }

    /**
     * `generateFinal(isRefine)`: always sends one request.  Unless it
     * throws, a first rendering (not a refinement) moves to the design
     * phase, even when the model answered with text only.
     */
    method GenerateFinal(isRefine: bool, reply: Outcome<Body>, svgBase64: string -> string)
      modifies this`loading, this`phase, this`finalImage, this`alerts
      ensures !loading
      ensures phase == (if !isRefine && !DispatchReply(reply, 100, svgBase64).Fails? then Design else old(phase))
      ensures match DispatchReply(reply, 100, svgBase64)
        case ShowImage(url) => finalImage == Some(url) && alerts == old(alerts)
        case NoImage(text) => finalImage == old(finalImage) && alerts == old(alerts) + [Message(text)]
        case Fails(e) => finalImage == old(finalImage) && alerts == old(alerts) + [AlertOf("", e)]
    {
      loading := true;
      var d := DispatchReply(reply, 100, svgBase64);
      match d {
        case ShowImage(url) =>
          finalImage := Some(url);
          if !isRefine { phase := Design; }
        case NoImage(text) =>
          alerts := alerts + [Message(text)];
          if !isRefine { phase := Design; }
        case Fails(e) =>
          alerts := alerts + [AlertOf("", e)];
      }
      loading := false;
    }

    /** A click on the `idx`-th progress step: only a step before the current phase is followed. */
    method ClickProgressStep(idx: nat)
      requires idx < |PHASE_ORDER|
      modifies this`phase
      ensures phase == (if IsClickable(idx, old(phase)) then PHASE_ORDER[idx] else old(phase))
      ensures PhaseIndex(phase) <= PhaseIndex(old(phase))
    {
      if IsClickable(idx, phase) {
        phase := PHASE_ORDER[idx];
      }
    }

    /** The label editor of step `idx`: that step's label changes and nothing else. */
    method EditStepLabel(idx: nat, value: string)
      requires draftData.steps.Some? && idx < |draftData.steps.value|
      modifies this`draftData
      ensures draftData.steps.Some? && |draftData.steps.value| == |old(draftData.steps.value)|
      ensures draftData.steps.value[idx] == old(draftData.steps.value[idx]).(labelText := value)
      ensures forall j :: 0 <= j < |draftData.steps.value| && j != idx ==> draftData.steps.value[j] == old(draftData.steps.value[j])
      ensures draftData.(steps := None) == old(draftData).(steps := None)
    {
      var newSteps := draftData.steps.GetOr([]);
      newSteps := newSteps[idx := newSteps[idx].(labelText := value)];
      draftData := draftData.(steps := Some(newSteps));
    }

    /** The visual-description editor of step `idx`: that step's description changes and nothing else. */
    method EditStepVisualDesc(idx: nat, value: string)
      requires draftData.steps.Some? && idx < |draftData.steps.value|
      modifies this`draftData
      ensures draftData.steps.Some? && |draftData.steps.value| == |old(draftData.steps.value)|
      ensures draftData.steps.value[idx] == old(draftData.steps.value[idx]).(visualDesc := value)
      ensures forall j :: 0 <= j < |draftData.steps.value| && j != idx ==> draftData.steps.value[j] == old(draftData.steps.value[j])
      ensures draftData.(steps := None) == old(draftData).(steps := None)
    {
      var newSteps := draftData.steps.GetOr([]);
      newSteps := newSteps[idx := newSteps[idx].(visualDesc := value)];
      draftData := draftData.(steps := Some(newSteps));
    }
  }
}
