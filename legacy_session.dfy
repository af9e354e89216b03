/**
 * The part of the Streamlit `st.session_state` that the legacy app's model
 * settings, navigation bar and history restore read and write.
 */
module LegacySession {
  import opened Wrappers

  /** A decoded PIL image, as an opaque value. */
  datatype Picture = Picture(pixels: seq<int>)

  /**
   * The `draft_data` dictionary parsed from the model's structure JSON.  The
   * history code reads `main_title` and `archetype_name`; every other member
   * is carried through unchanged as `otherMembers`.
   */
  datatype DraftJson = DraftJson(mainTitle: Option<string>, archetypeName: Option<string>, otherMembers: string)

  /** The empty dictionary `{}`. */
  const EMPTY_DRAFT := DraftJson(None, None, "")

  const DEFAULT_STYLE := "ビジネス・プロ (Business Pro)"
  const DEFAULT_TEXT_MODEL := "gemini-2.5-pro"
  const DEFAULT_IMAGE_MODEL := "nano-banana-pro-preview"

  class SessionState {
    var phase: string
    var draftData: DraftJson
    var finalPrompt: string
    var selectedStyleKey: string
    var isRefMandatory: bool
    var additionalInst: string
    var refImages: seq<Picture>
    /** `final_image`; `None` while the key is absent or holds None. */
    var finalImage: Option<Picture>
    var selectedTextModel: string
    var selectedImageModel: string
    var fallbackListText: seq<string>
    var fallbackListImage: seq<string>

    /** The defaults the app installs on its first run. */
    constructor ()
      ensures phase == "input" && draftData == EMPTY_DRAFT && finalPrompt == ""
      ensures selectedStyleKey == DEFAULT_STYLE && !isRefMandatory && additionalInst == ""
      ensures refImages == [] && finalImage == None
      ensures selectedTextModel == DEFAULT_TEXT_MODEL && selectedImageModel == DEFAULT_IMAGE_MODEL
      ensures fallbackListText == [DEFAULT_TEXT_MODEL] && fallbackListImage == [DEFAULT_IMAGE_MODEL]
    {
      phase := "input";
      draftData := EMPTY_DRAFT;
      finalPrompt := "";
      selectedStyleKey := DEFAULT_STYLE;
      isRefMandatory := false;
      additionalInst := "";
      refImages := [];
      finalImage := None;
      selectedTextModel := DEFAULT_TEXT_MODEL;
      selectedImageModel := DEFAULT_IMAGE_MODEL;
      fallbackListText := [DEFAULT_TEXT_MODEL];
      fallbackListImage := [DEFAULT_IMAGE_MODEL];
    }
  }
}
