# Blueprint Engine: model-calling core and history, in Dafny

The system turns free text into a diagram image with a generative-AI
provider. This project models the parts of it that make decisions:

- **The legacy Streamlit app** (`legacy_python/app.py`), covering:
  - `generate_with_fallback`, which tries models in list order, returns the first response and re-raises the last error;
  - `parse_image_response`;
  - the model-catalog filter `get_available_models`;
  - the model settings: text options, the selection clamp, and the fallback lists that put the chosen model first;
  - the navigation buttons of `render_progress_bar`;
  - the draft and final image steps, which parse only after the chain has returned.
- **The history helpers** (`legacy_python/history_utils.py`): `save_session`, `get_history_list` and `load_session`. They work over an abstract `history_data` folder, a map from entry names to entries.
- **`POST /api/generate-image`**: the API-key fallback, the request contents, one call to `gemini-2.0-flash-exp`, and classification of the reply by its first part.
- **`POST /api/generate-text`**: one primary call, plus exactly one retry on `gemini-1.5-flash` when the error message names a quota.
- **The Next.js page** (`src/app/page.tsx`), covering:
  - the code-fence cleaning of JSON replies;
  - the progress-bar rule;
  - the four handlers, with their guards, phase changes, alerts and the `loading` flag;
  - the dispatch of image replies into data URLs;
  - the step editors;
  - the style grid's use of `STYLE_ICONS`.

External collaborators are parameters of the operations that use them:

- the model provider, as a function from a call to a reply or an error message;
- `Image.open` and PNG encoding;
- the clock;
- the page's `fetch` reply and `JSON.parse`;
- the order in which `os.listdir` returns names, modelled as a nondeterministic choice.

Stateful code is modelled as classes with the source's fields:

- Streamlit's `st.session_state` is `LegacySession.SessionState`;
- the page's `useState` variables are `Wizard.Page`;
- the history folder is `History.HistoryStore`.

Modules, one per file:

- `Wrappers`: `Option`, `Outcome` and `Result`.
- `Strings`: substring search, `replace`-all, ASCII lower-casing, JavaScript `trim`, code-point order.
- `Sorting`: Python's `sorted` on string keys, ascending and descending. It also proves that sorting a duplicate-free listing gives one result whatever the listing order.
- `LegacySession`: the session state and its defaults.
- `LegacyApp`: `app.py`.
- `RouteCommon`: what the two routes share.
- `ImageRoute` and `TextRoute`: the two routes.
- `Wizard`: `page.tsx`.
- `History`: `history_utils.py`.

The model follows the code as written. In particular:

- `generate_with_fallback` has no per-attempt timeout, no backoff and no error that stops the chain early. Every exception moves on to the next model.
- No reply is retried for lacking a usable payload, and no vector markup is extracted from text.
- The model catalog is listed once. Nothing probes it again when a model is not found.
- The image route answers an image, a text or `{}`, and never `svg`. No request carries an aspect ratio.
- The text route retries once, on `gemini-1.5-flash`, and only on quota messages.

## Model

| member | source | states |
|---|---|---|
| LegacyApp.GenerateWithFallback | legacy_python/app.py:188-200 | The result is the reference chain `Chain`. The models asked are a prefix of the list, in order, and every one but the last raised. An empty list asks nobody. A success names the last model asked and carries that model's response. An error means every model was asked. |
| LegacyApp.ChainOnlyEmptyListHasNoModels | legacy_python/app.py:190-191 | "No models available." is raised exactly when the list is empty. |
| LegacyApp.ChainFirstSuccess | legacy_python/app.py:192-196 | When model k is the first whose call does not raise, the chain returns model k's response together with its name. |
| LegacyApp.ChainExhausted | legacy_python/app.py:197-200 | When every model raises, the chain raises the last model's error. |
| LegacyApp.ParseImageResponse | legacy_python/app.py:178-186 | An image comes back exactly when `parts` is non-empty, `parts[0].inline_data` exists and the image opens; it is the decoding of `parts[0]`'s data. None comes back exactly when there are no parts and no text. Every failure message starts with "Failed to parse image from response: ". A text-only response fails with "Response is text, not image.". |
| LegacyApp.GenerateImageStep | legacy_python/app.py:578-581 | The image step is the chain followed by the parser. When the first model replies with text only, no other model is asked and the step shows the parse error. |
| LegacyApp.GetAvailableModels | legacy_python/app.py:203-214 | An empty key gives `[]`, and so does a failing listing. Otherwise the result is `CatalogFilter` of the listing. |
| LegacyApp.CatalogFilterMembers | legacy_python/app.py:208-211 | A name is offered exactly when some listed model supports `generateContent` and has that short name. |
| LegacyApp.CatalogFilterAppend | legacy_python/app.py:207-212 | Filtering keeps listing order: filtering a concatenation gives the concatenation of the filtered parts. |
| LegacyApp.ShortNameStripsPrefix | legacy_python/app.py:210 | `models/<id>` becomes `<id>`. |
| LegacyApp.TextOptions | legacy_python/app.py:344-345 | The options are never empty. Fetched names are offered sorted and as a permutation of what was fetched. Without fetched names the options are the three defaults. |
| LegacyApp.ClampSelection | legacy_python/app.py:350-351 | The selection is always among the options. It is kept when offered and otherwise becomes the first option. |
| LegacyApp.Without | legacy_python/app.py:359 | The selected model is removed from the options. |
| LegacyApp.WithoutAppend | legacy_python/app.py:359-360 | Removing the selection from a concatenation removes it from each part, so the fallback list keeps the options' order. |
| LegacyApp.WithoutAbsent | legacy_python/app.py:359-360 | When the selection is not among the options, the comprehension returns the options unchanged and in order. |
| LegacyApp.WithoutMultiset | legacy_python/app.py:359-360 | The comprehension removes every copy of the selected model and keeps everything else. |
| LegacyApp.FallbackOrderPermutes | legacy_python/app.py:359-360 | The fallback list starts with the selection, which appears once, and otherwise holds the options. With distinct options it is a permutation of them with the same length. |
| LegacyApp.SelectboxValue | legacy_python/app.py:350-356 | The select box's value is always among the options. The user's pick is returned as it is. Without a pick, the current selection is kept when offered, and otherwise the first option is used. |
| LegacyApp.SelectTextModel | legacy_python/app.py:340-359 | The text options are the fetched catalog, sorted, or the three defaults when nothing was fetched. The text selection becomes the select box's value over them. The text fallback list is that value followed by the other options. Only these two fields change. |
| LegacyApp.SelectImageModel | legacy_python/app.py:347-360 | The image selection becomes the select box's value over the four image options. The image fallback list is that value followed by the other options. Only these two fields change. |
| LegacyApp.UpdateModelSettings | legacy_python/app.py:340-360 | Both selections become their select box's value: the user's pick, or the current selection clamped against its options. Both fallback lists are headed by those values and hold the other options. Only these four fields change. |
| LegacyApp.ImageFallbackIsPermutation | legacy_python/app.py:347-360 | Whichever image model is selected, the image fallback list starts with it and is a permutation of the four image options. |
| LegacyApp.NavButtonEnabled | legacy_python/app.py:232-249 | Step n's button is enabled exactly when n is at most the current step. |
| LegacyApp.NavButtonPressed | legacy_python/app.py:253-257 | Pressing a completed step moves to that step's phase. Pressing the active step or a later one changes nothing. No field other than the phase can change. |
| LegacySession.SessionState.constructor | legacy_python/app.py:12-30 | The first-run defaults: phase `input`, the default style, the default text and image models, each model alone in its fallback list, and no reference images. |
| RouteCommon.ResolveApiKey | src/app/api/generate-image/route.ts:11-15 | The body key is used when truthy, otherwise the environment key. There is no key exactly when neither is truthy, and a key that is used is never empty. |
| RouteCommon.ServerError | src/app/api/generate-image/route.ts:103-105 | A caught error gives status 500 with `{error}` carrying its message. An error without a message gives 500 with `{}`. |
| ImageRoute.BuildContent | src/app/api/generate-image/route.ts:23-34 | The contents are the prompt followed by one inline part per reference image, in order. When `refImages` is missing or not an array, the contents are the prompt alone. The loop throws exactly when some element is `null` or `undefined`. |
| ImageRoute.Classify | src/app/api/generate-image/route.ts:84-100 | The reply is an image, text or `{}`. It is an image exactly when the first part has inline data, and the image carries that part's mimeType and data unchanged. It is text exactly when there is no inline data and the text is non-empty, and the text is carried unchanged. |
| ImageRoute.ClassifyReadsOnlyFirstPart | src/app/api/generate-image/route.ts:85 | Two replies with the same first part of the first candidate are classified alike. |
| ImageRoute.Post | src/app/api/generate-image/route.ts:7-106 | A body that does not parse gives 500 with the parser's message and no call. Without a key: 400 "API Key is required" and no call. A `null` reference image gives 500 with the engine's TypeError message and no call. Otherwise there is exactly one call, to `gemini-2.0-flash-exp` with the resolved key and the assembled contents. That call's reply gives 200 with its classification, and its error gives 500 with the error's message, or `{}` when it has none. The route never answers `svg` or `{text}`. |
| TextRoute.BuildContent | src/app/api/generate-text/route.ts:20-23 | The contents are `[prompt]`, plus one inline part exactly when both `image` and `mimeType` are truthy. |
| TextRoute.QuotaTestIgnoresCase | src/app/api/generate-text/route.ts:30 | A message and its lower-cased form are classified alike. |
| TextRoute.QuotaKeywordsMatch | src/app/api/generate-text/route.ts:30 | A message containing "quota", "429" or "exhausted", in any case, is a quota error. |
| TextRoute.QuotaKeywordAnywhere | src/app/api/generate-text/route.ts:30 | A keyword at any position in the message triggers the fallback. |
| TextRoute.Post | src/app/api/generate-text/route.ts:4-47 | A body that does not parse gives 500 with the parser's message and no call. Without a key: 400 and no call. Otherwise the route makes one or two calls, and the first is to the primary model with the resolved key and the assembled contents. Primary success returns its text and makes no second call. A primary error without a message makes `toLowerCase` throw, giving 500 with the engine's TypeError message. A non-quota error gives 500 with that message. A quota error makes exactly one more call with the same key and contents on `gemini-1.5-flash`. That call's text is the answer, and its error gives 500 with its message, or `{}` when it has none. |
| Wizard.PhaseIndex | src/app/page.tsx:309-310 | `phaseOrder.indexOf(phase)` is never -1 and indexes that phase. |
| Wizard.ClickableOnlyBackwards | src/app/page.tsx:314-322 | A step is clickable exactly when it lies before the current phase. The active step never is. No step is clickable in `input`. In `design`, exactly the first three steps are. |
| Wizard.Page.ClickProgressStep | src/app/page.tsx:322 | A click moves to the step only when it is clickable, so the phase index never grows. |
| Wizard.CleanJsonHasNoFence | src/app/page.tsx:126 | No "```" is left after cleaning. |
| Wizard.CleanJsonIdempotent | src/app/page.tsx:163 | Cleaning an already cleaned reply changes nothing. |
| Wizard.StructureReply | src/app/page.tsx:123-127 | The structure is accepted exactly when the reply is `{text}` and its cleaned text parses, and it is the parsed value. A reply carrying an error throws that error's message. |
| Wizard.Prefix | src/app/page.tsx:244 | `substring(0, n)` is a prefix of at most n characters. It is the whole string when the string is short enough. |
| Wizard.DispatchReply | src/app/page.tsx:236-245 | A reply carrying an error throws it. An image is shown exactly for an `image` or `svg` reply, as `data:<mimeType>;base64,<data>` or as an `image/svg+xml` base64 URL. The no-image alert appears exactly for a text reply and quotes a prefix of its content. |
| Wizard.RouteRepliesNeverTakeSvgBranch | src/app/page.tsx:241-242 | Against the replies the image route can give, an image is shown exactly for an image reply. `{}` makes the handler throw. |
| Wizard.EveryStyleHasIcon | src/lib/constants.ts:13-37 | Every `STYLE_PROMPTS` key has a `STYLE_ICONS` entry, and the default style is one of the keys. |
| Wizard.StyleTiles | src/app/page.tsx:740-752 | The design grid has one tile per style, in order, each reading that style's icon entry. |
| Wizard.Page.constructor | src/app/page.tsx:21-49 | The `useState` initial values. |
| Wizard.Page.GenerateStructure | src/app/page.tsx:78-134 | A request is sent exactly when there is a key or the input is at least five UTF-16 units long. When nothing is sent, the settings open and nothing else changes. A parsed reply stores the structure and moves to `struct`. A failure adds one "Error: " alert and leaves the structure and the phase alone. `loading` ends false. |
| Wizard.Page.UpdateStructure | src/app/page.tsx:137-168 | A parsed reply replaces the structure and clears the retake instruction. A failure alerts and changes neither. The phase is never touched, and `loading` ends false. |
| Wizard.Page.GenerateDraft | src/app/page.tsx:171-249 | Without a key the settings open and nothing is sent. Otherwise the phase becomes `draft` whatever the reply, and only an image or svg reply replaces the draft image. A text reply gives the 50-character alert, and a throw gives its message. `loading` ends false. |
| Wizard.Page.GenerateFinal | src/app/page.tsx:252-296 | Unless the handler throws, a first rendering moves to `design`, even after a text-only reply. A refinement keeps the phase. Only an image or svg reply replaces the final image. The alert excerpt is 100 characters. `loading` ends false. |
| Wizard.Page.EditStepLabel | src/app/page.tsx:572-576 | Only step idx's label changes. The other steps, the step count and the other `draftData` fields are kept. |
| Wizard.Page.EditStepVisualDesc | src/app/page.tsx:585-589 | Only step idx's visual description changes. Everything else is kept. |
| Strings.Utf16Length | src/app/page.tsx:80 | `inputText.length` counts UTF-16 units: between one and two per character. |
| Sorting.SortBy | legacy_python/app.py:345 | `sorted` returns an ascending permutation of its input with the same length. |
| Sorting.SortedListingIsUnique | legacy_python/history_utils.py:85 | `sorted(os.listdir(d))` is the same whatever order the listing comes in. |
| History.StampOrderIsChronological | legacy_python/history_utils.py:21 | Comparing two `%Y%m%d_%H%M%S` timestamps as strings compares the instants, and equal timestamps are equal instants. |
| History.ClockOrder | legacy_python/history_utils.py:21 | Comparing the `_%H%M%S` ends of two timestamps as strings compares the times of day, and equal ends are equal times. |
| History.SessionIdsCollideWithinSecond | legacy_python/history_utils.py:21-24 | Two saves share a session folder exactly when they happen in the same second. |
| History.TitleOf | legacy_python/history_utils.py:29 | The stored title is never empty. It is `main_title` when that is present and non-empty, and "Untitled" otherwise. |
| History.SavedMetaRoundTrip | legacy_python/history_utils.py:27-37 | Loading the metadata a save wrote restores the saved draft, prompt, style, flag and instruction. The history row shows the save's timestamp, title and style. |
| History.HistoryStore.SaveSession | legacy_python/history_utils.py:14-59 | The folder named after the current second gets the new metadata, `ref_{i}.png` for each image that encodes, and the final image when it encodes. Files already in a reused folder stay unless overwritten. The session id is returned. A plain file with that name makes the save fail and changes nothing. |
| History.WriteRefsContents | legacy_python/history_utils.py:46-50 | When every image encodes, after the save loop `ref_{i}.png` holds image i's encoding for every i. Every other name keeps its old content, and the loop adds no other names. |
| History.WriteRefsKeys | legacy_python/history_utils.py:46-48 | When every image encodes, the save adds exactly the names `ref_{from}.png` onwards. |
| History.SavedFolderHoldsEncodings | legacy_python/history_utils.py:46-48 | When every image encodes, saving into an empty folder stores image i's encoding under `ref_{i}.png`, for every i. |
| History.SavedNamesPassFilter | legacy_python/history_utils.py:87 | Every name the save writes passes the reload filter. |
| History.RefNamesSortInSaveOrder | legacy_python/history_utils.py:85 | For images 0 to 9, the sorted order of the names is the save order. |
| History.RefNamesLeaveSaveOrderFromEleven | legacy_python/history_utils.py:85 | `ref_10.png` sorts before `ref_2.png`. |
| History.SavedNamesListSorted | legacy_python/history_utils.py:85 | Up to ten images saved into a fresh folder list back, sorted, as `ref_0.png` ... `ref_{n-1}.png`. |
| History.RefImagesRoundTrip | legacy_python/history_utils.py:46-48 | Up to ten images saved into a fresh folder, each decoding back to itself, are reloaded exactly and in save order. |
| History.ListDir | legacy_python/history_utils.py:109 | The listing holds every entry name once, in an order the file system chooses. |
| History.CollectRows | legacy_python/history_utils.py:109-123 | There is one row per entry holding a readable `metadata.json`, with defaults "" for the timestamp, "No Title" for the title and "" for the style. Other entries are skipped, and ids are distinct. |
| History.SortByTimestampDesc | legacy_python/history_utils.py:126 | The rows come out sorted by timestamp, largest first, as a permutation of the input. |
| History.HistoryStore.GetHistoryList | legacy_python/history_utils.py:103-127 | A row is listed exactly when it is the row of an entry holding a readable `metadata.json`. Ids are distinct, and rows are sorted by timestamp, largest first. |
| History.HistoryListIsNewestFirst | legacy_python/history_utils.py:126 | With timestamps written by the save, no row precedes one saved later. |
| History.ReadRefFiles | legacy_python/history_utils.py:86-91 | The files that pass the filter are opened in order. Files that fail to open are skipped. |
| History.ReadRefImages | legacy_python/history_utils.py:84-91 | The reloaded images are the sorted names of the `ref_images` folder, filtered and opened, whatever the listing order. |
| History.HistoryStore.LoadSession | legacy_python/history_utils.py:61-101 | A missing entry reports not found and changes nothing. A missing or unreadable `metadata.json` reports failure and changes nothing. A `metadata.json` that holds JSON other than an object reports failure after the phase has become `design`, with nothing else changed. Otherwise the phase becomes `design` and the settings are restored with their defaults (the style defaults to "ビジネス・プロ (Business Pro)"). The reference images are reset and reloaded. The final image is replaced when `final_output.png` opens. When it exists but fails to open, the load reports failure after the rest was restored. |
| History.RestoreSettings | legacy_python/history_utils.py:75-79 | The draft, prompt, style, flag and instruction take the metadata's values, or `{}`, "", the default style, `False` and "" when missing. Nothing else changes. |
| History.RestoreImages | legacy_python/history_utils.py:82-96 | The reference images become the sorted, filtered and opened names of `ref_images`, or none without that folder. The final image is replaced exactly when `final_output.png` exists and opens. |
| History.FinalImageResult | legacy_python/history_utils.py:94-101 | Once the metadata is read, the load fails exactly when `final_output.png` exists and fails to open. It never reports not found. |
| History.FinalImageAfter | legacy_python/history_utils.py:94-95 | `final_image` becomes the opened `final_output.png` when it exists and opens, and keeps its old value otherwise. |

## Left out

- The provider SDK, `fetch`, `genai.list_models`, PIL and the file system are oracles or abstract maps. SDK internals, image codecs and the JPEG/RGB conversion are not modelled.
- Timeouts, backoff, fatal credential errors, vector-markup extraction, catalog probing and aspect ratios are not in the code, so they are not in the model.
- `src/app/api/debug-models/route.ts`, the Streamlit layout and CSS, the JSX markup and `tailwind.config.ts` are UI or a thin wrapper around the provider's REST API.
- Prompt templates are free text. The model keeps each call's contents, not the wording of its prompt.
- `handleImageUpload` is not modelled. Its `FileReader` callbacks finish in any order.
- The five-minute `st.cache_data` cache of `get_available_models` is not modelled.
- Wizard.Prefix: counts characters, while `substring` counts UTF-16 units. The two agree for text without characters outside the Basic Multilingual Plane.
- TextRoute.IsQuotaError: lower-cases ASCII letters only, while `toLowerCase` is Unicode-aware. No other character lower-cases into the letters or digits of the three keywords, so the classification is the same.
- Wizard.DispatchReply: `btoa(unescape(encodeURIComponent(...)))` is an opaque parameter, and so is base64 throughout.
- Wizard.StructureReply: the wording of a `TypeError` raised by reading a member of `undefined` belongs to the JavaScript engine. It is kept as a distinct alert without its text.
- Wizard.Page.EditStepLabel: the source copies the array but mutates the shared step object in place. The model updates a value, so aliasing with the previous `draftData` is not captured. The same holds for Wizard.Page.EditStepVisualDesc.
- The page's other setters are not modelled: text fields, settings toggles, the style buttons, back buttons and the history panel. Each only stores its input.
- History.SortByTimestampDesc: does not state stability. Python's sort keeps rows with equal timestamps in listing order, and no lemma here says so. The listing order is the file system's, so the order among equal timestamps is not fixed either way. The same holds for Sorting.SortBy, whose keys are the names themselves.
- History.HistoryStore.SaveSession: treats JSON `null` values in the draft as missing members. Its metadata write cannot fail. A failed image write leaves whatever file was there before.
- History.HistoryStore.LoadSession: assumes `ref_images`, when present, is a folder. The metadata's `phase`, `input_text` and `archetype` fields are written but never read back, as in the source.
- ImageRoute.Post: reference images are objects with string `data` and `mimeType`. An element whose fields are missing or not strings is passed on unchanged in the source and is not modelled. A `typeError` parameter stands for the engine's wording of a TypeError, and so does the one of TextRoute.Post.
- `st.rerun`, `st.error`, `st.balloons`, the `print` of failed writes and `console.error` are rendering or logging and change no state that the model keeps.
