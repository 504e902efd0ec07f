# Theme generator front-end, modelled in Dafny

The application turns a party or event topic typed by the user ("Festa
Neon", "Casamento Rústico", …) into a theme. A text model produces the
title, description, colour palette, playlist, activity ideas and decoration
tips, and an image model renders four assets: an invitation (*Convite*), a
shirt print (*Camisa*), a flag (*Bandeira*) and a decoration scene
(*Decoração*). This project models the logic around those two calls:

- `wrappers.dfy`: module `Wrappers`, the `Option` and `Result` types.
- `js_text.dfy`: module `JsText`, the pieces of JavaScript string behaviour the
  core relies on:
  - the whitespace set shared by `\s` and `String.prototype.trim`;
  - truthiness of `string | null`;
  - `trim`;
  - `replace(/\s+/g, '-')`.
- `types.dfy`: module `Types`, the theme record and the asset kinds with their
  labels.
- `gemini_service.dfy`: module `GeminiService`:
  - the theme-text prompt and the empty-text check before `JSON.parse`;
  - the four asset prompts;
  - the loop that takes the first inline image out of an image response and
    builds its `data:` URI.

  The provider calls and `JSON.parse` are functions passed in as parameters.
- `asset_card.dfy`: module `AssetCard`:
  - the image lifecycle of one card as a class: fetch start, fetch completion,
    the refetch on a props change, and regeneration;
  - the download guard and filename, the download button's visibility and the
    display priority of the picture area.
- `hero_input.dfy`: module `HeroInput`, the topic form as a class: the input
  field, the submit guard, Enter versus Shift+Enter, the suggestion chips and
  the disabled state of the submit button.
- `app.dfy`: module `App`, the top-level controller as a class: the screen, the
  loading flag, the theme, the current topic and the error toast. Its events
  are generate start, generate completion, back and dismiss.
- `theme_dashboard.dfy`: module `ThemeDashboard`, the one structural fact of
  the results screen: it renders four cards, one per kind, all for the same
  topic.

Each asynchronous handler is split into the synchronous part that runs when
it is called and a completion method that runs when its request settles.
Other events can be applied between the two, in any order. The model adds
no ordering guard, because the code has none.

## Model

| member | source | states |
|---|---|---|
| JsText.IsSpace | components/AssetCard.tsx:39 | Letters, digits and the hyphen are not whitespace, while space, tab, line feed and carriage return are. The same set serves `\s` and `trim`. |
| JsText.Truthy | components/AssetCard.tsx:36 | A nullable string is falsy exactly when it is `null` or empty. |
| JsText.Trim | components/HeroInput.tsx:14 | `trim` yields the empty string exactly when the text is all whitespace. Otherwise the result starts and ends with a non-space character. |
| JsText.TrimIsSlice | components/HeroInput.tsx:14 | `trim` only cuts whitespace: the result is a contiguous slice of the input with nothing but whitespace before and after it. |
| JsText.HyphenateSpaceRuns | components/AssetCard.tsx:39 | `replace(/\s+/g, '-')` never lengthens the text, and it yields the empty string only for the empty string. |
| JsText.HyphenatedSpaceFree | components/AssetCard.tsx:39 | After `replace(/\s+/g, '-')` no whitespace remains. |
| JsText.HyphenateSpaceFree | components/AssetCard.tsx:39 | Text without whitespace is left unchanged. |
| JsText.HyphenateIdempotent | components/AssetCard.tsx:39 | Replacing twice gives the same result as replacing once. |
| JsText.HyphenateLeadingRun | components/AssetCard.tsx:39 | A leading whitespace run of any length becomes exactly one hyphen. The topic is not trimmed first, so a leading run yields a hyphen of its own after the separator. |
| JsText.HyphenateAppend | components/AssetCard.tsx:39 | When a cut does not split a whitespace run, replacing distributes over concatenation. |
| JsText.HyphenateRun | components/AssetCard.tsx:39 | A maximal whitespace run between two words becomes exactly one `-`, and both sides are replaced independently. |
| Types.Label | types.ts:10-15 | Each asset kind's label is non-empty and contains no whitespace. |
| Types.LabelsDistinct | types.ts:10-15 | The four labels differ already in their first two characters. |
| GeminiService.ThemeTextPrompt | services/geminiService.ts:13-24 | The topic appears verbatim between two double quotes at a fixed offset, and the prompt length is fixed apart from the topic. |
| GeminiService.ThemeTextPromptInjective | services/geminiService.ts:13-24 | Different topics give different theme-text prompts. |
| GeminiService.GenerateThemeText | services/geminiService.ts:11-54 | The prompt goes to the provider and provider errors are rethrown unchanged. An absent or empty text gives the "no text" error and never a theme. A parse failure gives the malformed-JSON error. Otherwise the result is exactly what the parser yields. |
| GeminiService.AssetPrompt | services/geminiService.ts:58-73 | Each kind's prompt is its head, the verbatim topic and its tail. |
| GeminiService.AssetPromptHeadsDiffer | services/geminiService.ts:60-73 | Two kinds' template heads differ in their third or fifth character. |
| GeminiService.AssetPromptsDistinct | services/geminiService.ts:60-73 | For one topic the four kinds send pairwise different prompts. |
| GeminiService.AssetPromptInjective | services/geminiService.ts:60-73 | For one kind, different topics give different prompts. |
| GeminiService.ResponseParts | services/geminiService.ts:88 | A missing or empty candidate list gives no parts. Any part that is found comes from the first candidate's content. |
| GeminiService.HasImageData | services/geminiService.ts:89 | A text part without inline data and a part with an empty payload are skipped. A part with a non-empty payload qualifies. |
| GeminiService.TemplateText | services/geminiService.ts:90 | A present value is rendered as it is. The hole reads `undefined` exactly when the value is absent or is that very word. |
| GeminiService.DataUri | services/geminiService.ts:90 | The URI starts with `data:` and ends with the payload. |
| GeminiService.ExtractImage | services/geminiService.ts:88-94 | Success comes exactly when some part carries truthy inline data. The result is the data URI of the first such part. Otherwise the result is the "no image data" error, including when candidates, content or parts are missing. |
| GeminiService.ExtractionUnique | services/geminiService.ts:88-94 | The extraction's specification admits exactly one result per response. |
| GeminiService.ExtractedImageIsDataUri | services/geminiService.ts:90 | A successful extraction is always a `data:` URI, so it is never empty. |
| GeminiService.LaterPartsIgnored | services/geminiService.ts:88-92 | Parts after the first image part do not affect which part is chosen. |
| GeminiService.GenerateAssetImage | services/geminiService.ts:56-100 | The kind's prompt goes to the provider and its errors are rethrown unchanged. Otherwise the result is the extraction from the provider's response. |
| AssetCard.DownloadFilename | components/AssetCard.tsx:39 | The filename starts with the kind's label and ends with `.png`. Its length is the label's, plus the hyphenated topic's, plus five. |
| AssetCard.DownloadFilenameShape | components/AssetCard.tsx:39 | The filename is the label, `-`, the hyphenated topic and `.png`, and it contains no whitespace. |
| AssetCard.DownloadFilenameKeepsPlainTopic | components/AssetCard.tsx:39 | A topic without whitespace appears in the filename unchanged. |
| AssetCard.DownloadFilenameIdempotent | components/AssetCard.tsx:39 | Hyphenating the topic beforehand does not change the filename. |
| AssetCard.DownloadFilenameIdentifiesKind | components/AssetCard.tsx:39 | The filename determines the asset kind. |
| AssetCard.Download | components/AssetCard.tsx:35-44 | Download does nothing without a truthy image URL. Otherwise the link points at the image and carries the kind and topic filename. |
| AssetCard.DownloadVisible | components/AssetCard.tsx:57 | The download button is visible exactly when the picture area would show the image if there were no error. |
| AssetCard.Display | components/AssetCard.tsx:78-98 | The picture area shows the spinner iff loading, the failure notice iff not loading and failed, and the image iff neither and the URL is truthy. Otherwise it shows the placeholder. |
| AssetCard.VisibleDownloadDownloads | components/AssetCard.tsx:35-57 | Clicking a visible download button always produces the link. |
| AssetCard.DownloadVisibleWhileFailed | components/AssetCard.tsx:57-98 | The download button is visible iff the image is shown, or the failure notice is shown over an earlier image. |
| AssetCard.AssetCard.constructor | components/AssetCard.tsx:12-14 | A card starts with no image, loading and not failed. |
| AssetCard.AssetCard.FetchStart | components/AssetCard.tsx:16-18 | Loading starts and the error is cleared. The previous image is kept, and the request is for the current props. |
| AssetCard.AssetCard.FetchCompleted | components/AssetCard.tsx:19-26 | A URL replaces the image. A failure raises the error and keeps the image. A success leaves the error as it was. Loading ends either way. The invariant "never loading and failed" is kept. |
| AssetCard.AssetCard.UpdateProps | components/AssetCard.tsx:30-33 | A fetch starts exactly when the kind or the topic changed. |
| AssetCard.AssetCard.Regenerate | components/AssetCard.tsx:66-86 | The regenerate button and the retry link start a fetch only when not loading. |
| AssetCard.StaleCompletionWins | components/AssetCard.tsx:16-33 | Two requests can only be in flight together when the props change during loading. If they settle out of order, a successful older request decides the image: the card shows the old props' image, and the download names it after the new props. A failure of either request leaves the failure notice up. |
| AssetCard.FirstLoad | components/AssetCard.tsx:16-33 | A first load through the image service shows the image iff the response carries image data. That image is the first qualifying part's data URI. A provider error shows the failure notice. |
| HeroInput.CanSubmit | components/HeroInput.tsx:14 | The guard holds iff the input is not all whitespace and no generation is running. |
| HeroInput.SuggestionsSubmittable | components/HeroInput.tsx:74-79 | Every suggestion chip puts a submittable topic into the field. |
| HeroInput.HeroInput.constructor | components/HeroInput.tsx:10 | The field starts empty. |
| HeroInput.HeroInput.Change | components/HeroInput.tsx:45 | The field takes the typed text as it is. |
| HeroInput.HeroInput.Submit | components/HeroInput.tsx:12-17 | `onGenerate` is called iff the guard holds, with the untrimmed input. The field is not modified. |
| HeroInput.HeroInput.KeyDown | components/HeroInput.tsx:48-53 | Only Enter without Shift submits, and then exactly as `Submit` does. |
| HeroInput.HeroInput.PickSuggestion | components/HeroInput.tsx:74-79 | The field becomes exactly the chip's text, and nothing is submitted. |
| HeroInput.HeroInput.SubmitDisabled | components/HeroInput.tsx:57 | The button is disabled iff the submit guard refuses. |
| HeroInput.ChipThenEnter | components/HeroInput.tsx:48-79 | Picking a chip and pressing Enter generates exactly that chip's topic. |
| HeroInput.BlankNeverSubmits | components/HeroInput.tsx:12-53 | A whitespace-only field never submits, whatever the key and loading state. |
| App.ShowsInputForm | App.tsx:49 | When the form is rendered, the dashboard is not, whatever the theme. |
| App.ShowsDashboard | App.tsx:53 | The dashboard needs the results view and a theme. |
| App.ShowsErrorToast | App.tsx:42 | No error means no toast. The fixed generation message is always shown. |
| App.ExactlyOneScreen | App.tsx:49-59 | While the results view has a theme, exactly one of the form and the dashboard is rendered. |
| App.ResultsWithoutThemeIsBlank | App.tsx:53 | The results view without a theme renders neither screen. |
| App.App.constructor | App.tsx:9-13 | The app starts on the form: not loading, no theme, empty topic, no error. |
| App.App.GenerateStart | App.tsx:15-18 | Loading starts, the error is cleared and the topic is remembered. The view and the theme stay. |
| App.App.GenerateCompleted | App.tsx:20-30 | A theme is stored and shown on the results view. Any failure sets the fixed message and keeps the view, theme and topic. Loading ends either way. The results view always has a theme and the only error is the fixed message. |
| App.App.Back | App.tsx:33-37 | Back returns to the form with no theme and an empty topic. The error and the loading flag are untouched. |
| App.App.DismissError | App.tsx:45 | The error is cleared and nothing else changes. |
| App.GenerateFromStart | App.tsx:15-31 | From the initial state, the dashboard shows iff the text service succeeds, and the toast shows iff it fails. The topic is remembered in both cases and loading ends. |
| App.GenerateThenBack | App.tsx:15-37 | After a shown theme and back, the form returns with no toast and an empty topic. |
| ThemeDashboard.AssetCards | components/ThemeDashboard.tsx:97-100 | There are four cards, one per kind with no repeats, all for the original topic. |
| ThemeDashboard.CardPromptsDistinct | components/ThemeDashboard.tsx:97-100 | No two of the four cards send the same image prompt. |

## Left out

- The provider SDK, including:
  - client construction from the API key;
  - model names;
  - the response schema;
  - the aspect-ratio configuration.

  These are network calls. Each is a function parameter returning either a response or an error. The error's type, `GeminiService.ProviderError`, admits only `ProviderFailure`, so a provider never raises the errors that the service raises itself.
- `JSON.parse` and the unchecked `as ThemeTextData` cast. Parsing is a parameter returning `Option<ThemeTextData>`. The model does not capture that a parse can succeed with a value of another shape.
- A text response of `null`. `JSON.parse("null")` succeeds, and `App.tsx:23-24` then shows the results view with no theme: a blank screen without a back button. The parse parameter cannot return `null`, so `App.App.Valid` excludes this reachable state. `App.ResultsWithoutThemeIsBlank` states what that state would render.
- `console.error` logging, JSX markup, styling and icons.
- The DOM side of a download (creating, clicking and removing the anchor). Only the guard and the link's `href` and `download` values are modelled.
- Real asynchrony and React's batching and scheduling. Each handler is a start method plus a completion method, and completions may be applied in any order. The model does not decide when the effect runs beyond "on mount and whenever the kind or topic changes".
- The rest of the results screen: lists, colour swatches, and the upper-cased topic heading. Only its four cards are modelled.
- Unicode beyond the fixed whitespace set. `JsText.IsSpace` lists the ECMAScript WhiteSpace and LineTerminator characters. Strings are sequences of characters, not UTF-16 code units.
- Stale completions. A completion from an older request can overwrite the image or the error of a newer one. The code has no ordering guard, and the model follows the code; `AssetCard.StaleCompletionWins` states what then happens.
