# Verified model of the single-page HTML generator

The application takes a description of a web page and a mode (Fast or
Think), sends it to a Gemini text-generation model, and shows the single-file
HTML it returns either as a sandboxed preview or as source. This project
models its three pieces of real behaviour in Dafny and proves what they
promise:

- the generation client `generateAppCode` (module `GeminiService`): the
  credential guard, the closed mapping from mode to model id and thinking
  budget, the fixed system instruction, the empty-text check, the forwarding
  of error messages, and the clean-up of the response (three anchored
  `replace` calls, then `trim`);
- the application controller of `App` (module `AppController`): its five
  state cells, `handleGenerate` split into its synchronous start and its
  settle, `reset`, the two view toggles, regenerate, `handleDownload`, and
  the choice between the landing, loading and result screens;
- the composer `InputBar` (module `InputBar`): its text and mode, the submit
  guard, the Enter/Shift rule, the mode toggles and the send button's
  disabled state.

`ModelMode` is a two-constructor datatype (module `Types`). JavaScript's
`trim`, anchored `startsWith`/`endsWith` tests and string truthiness are in
module `JsString`; `trim` removes exactly the characters of `IsWhitespace`
(the WhiteSpace and LineTerminator code points of ECMA-262), and every lemma
about it uses only that predicate.

The network call is an input: `GenerateAppCode` receives the credential as
an `Option<string>` and the SDK's outcome (a rejection with a possibly
missing message, or a response with a possibly missing text), and returns
the request it would have sent (`None` when no call is made) with its
result. Controller state is a value `AppState`; the functions `Start`,
`Settle`, `ResetState` and `SetView` are the transitions, and the class `App`
performs them field by field, each handler proved to perform its function.

Where the code and a natural reading of the application's design differ,
the model follows the code:

- A failed generation returns to the screen it started from: landing for a
  first generation, result for a regenerate. It leaves `generatedCode` as it
  was (`FailureRestoresScreen`, `FailedRegenerateKeepsResult`).
- "The result is non-null exactly on the result screen" does not hold. The
  screen test is truthiness, and a response of just "```" passes the
  client's empty-text check and cleans to "", which shows the landing screen,
  also when it answers a regenerate on the result screen
  (`BareFenceResponseShowsLanding`).
- The client rejects an empty response text as well as a missing one, and an
  empty credential as well as a missing one.
- A closing fence is removed only when "```" is literally the last thing in
  the text. A response ending in "```\n" keeps that fence unless the
  bare-opener replace reaches any of its backticks: that is, unless what
  precedes the fence, once a leading "```html" is removed, is "", "`" or "``"
  (as in "```\n", which cleans to "", and "````\n", which cleans to "`",
  `OverlappingFenceIsConsumed`; both directions are
  `FenceBeforeWhitespaceKeptIff`). Plain bodies, "```html"-wrapped bodies
  and bare-"```"-wrapped bodies keep it
  (`CleanupKeepsFenceBeforeWhitespace`,
  `CleanupKeepsWrappedFenceBeforeWhitespace`,
  `CleanupKeepsBareWrappedFenceBeforeWhitespace`).
- `reset` keeps `lastMode` and `viewMode`.
- The composer is rendered only on the landing screen, where `isLoading` is
  false (`LandingImpliesNotLoading`). So in the running application its
  `isLoading` guard never fires. It is still modelled as written.

## Model

| member | source | states |
|---|---|---|
| `JsString.IsWhitespace` | services/geminiService.ts:48 | the characters `trim` removes: the WhiteSpace and LineTerminator code points of ECMA-262 |
| `JsString.Truthy` | App.tsx:49 | JavaScript truthiness of a possibly absent string, as in the `!x` tests of App.tsx:31 and 49 and services/geminiService.ts:14 and 43: present and non-empty |
| `JsString.LeadingWhitespace` | services/geminiService.ts:48 | the count covers a run of whitespace at the start that is followed by a non-whitespace character or the end |
| `JsString.TrailingWhitespace` | services/geminiService.ts:48 | the count covers a run of whitespace at the end that is preceded by a non-whitespace character or the start |
| `JsString.TrimStart` | services/geminiService.ts:48 | the result does not start with whitespace |
| `JsString.TrimEnd` | services/geminiService.ts:48 | the result does not end with whitespace |
| `JsString.Trim` | services/geminiService.ts:48 | the result has no outer whitespace and is no longer than the input |
| `JsString.TrimOfPadded` | services/geminiService.ts:48 | trim is determined by that property: any whitespace-padded string without outer whitespace trims to itself without the padding |
| `JsString.TrimIdempotent` | services/geminiService.ts:48 | trimming twice equals trimming once |
| `JsString.TrimUnchanged` | services/geminiService.ts:48 | a string without outer whitespace is returned unchanged |
| `JsString.TrimEmptyIff` | components/InputBar.tsx:16 | `s.trim()` is empty exactly when `s` is all whitespace |
| `GeminiService.BuildRequest` | services/geminiService.ts:23-39 | the request carries the prompt and the fixed system instruction; THINKING selects gemini-3-pro-preview with thinking budget 32768, FAST selects gemini-3-flash-preview with no thinking config |
| `GeminiService.ModesDifferOnlyInModelAndBudget` | services/geminiService.ts:33-39 | the two modes send the same contents and system instruction and differ in the model id and the presence of a thinking budget |
| `GeminiService.StripPrefix` | services/geminiService.ts:48 | `replace(/^p/, '')` removes one `p` only when the text starts with it, and otherwise changes nothing |
| `GeminiService.StripSuffix` | services/geminiService.ts:48 | `replace(/p$/, '')` removes one `p` only when the text ends with it, and otherwise changes nothing |
| `GeminiService.Cleanup` | services/geminiService.ts:48 | the cleaned output has no leading or trailing whitespace and is never longer than the raw text |
| `GeminiService.CleanupUnwrapsHtmlFence` | services/geminiService.ts:48 | for inner text not starting with "```", cleaning "```html" + s + "```" gives trim(s) |
| `GeminiService.CleanupOfUnfenced` | services/geminiService.ts:48 | text that neither starts nor ends with "```" is only trimmed |
| `GeminiService.NoFenceStrippedBeforeWhitespace` | services/geminiService.ts:48 | none of the three replacements touches a text that ends in whitespace and does not open with a fence |
| `JsString.TrimKeepsTail` | services/geminiService.ts:48 | trim keeps a non-empty tail without outer whitespace (such as "```") that only whitespace follows, removing only the whitespace before and after |
| `GeminiService.CleanupKeepsFenceBeforeWhitespace` | services/geminiService.ts:48 | for a body such that body + "```" does not itself start with "```", and non-empty whitespace w, body + "```" + w cleans to the body without its leading whitespace followed by "```": the closing fence is kept |
| `GeminiService.CleanupKeepsWrappedFenceBeforeWhitespace` | services/geminiService.ts:48 | for s such that s + "```" does not start with "```", and non-empty whitespace w, "```html" + s + "```" + w cleans to s without its leading whitespace followed by "```": the opener goes, the closing fence stays |
| `GeminiService.CleanupKeepsBareWrappedFenceBeforeWhitespace` | services/geminiService.ts:48 | for s such that "```" + s does not start with "```html" and s + "```" does not start with "```", and non-empty whitespace w, "```" + s + "```" + w cleans to s without its leading whitespace followed by "```": the bare opener goes, the closing fence stays |
| `GeminiService.HtmlStripStopsBeforeFence` | services/geminiService.ts:48 | for non-empty whitespace w, the "```html" replace on b + "```" + w acts on b alone: it never reaches the closing fence |
| `GeminiService.BareStripBeforeFence` | services/geminiService.ts:48 | for non-empty whitespace w, the bare-opener replace on c + "```" + w consumes backticks of the closing fence exactly when c is "", "`" or "``" (leaving c + w), and otherwise acts on c alone |
| `GeminiService.CleanupBeforeFence` | services/geminiService.ts:48 | for non-empty whitespace w, the trailing-fence replace never fires on b + "```" + w: its cleanup is the trim of the two opener replaces |
| `GeminiService.LongRunKeepsFence` | services/geminiService.ts:48 | when c is not "", "`" or "``", the bare-opener replace and trim of c + "```" + w leave a text ending in "```" |
| `GeminiService.ShortRunTrims` | services/geminiService.ts:48 | when c is "", "`" or "``", the bare-opener replace and trim of c + "```" + w leave a text not ending in "```" |
| `GeminiService.FenceBeforeWhitespaceKeptIff` | services/geminiService.ts:48 | for non-empty whitespace w, b + "```" + w cleans to a text ending in "```" if and only if b, without a leading "```html", is not "", "`" or "``" |
| `GeminiService.OverlappingFenceIsConsumed` | services/geminiService.ts:48 | "````\n" cleans to "`": when the bare-opener replace takes backticks of the closing fence, that fence is not kept |
| `GeminiService.BareFenceCleansToEmpty` | services/geminiService.ts:43-48 | a response of just "```" passes the empty-text check and cleans to "" |
| `GeminiService.ForwardedMessage` | services/geminiService.ts:50-52 | a caught error is rethrown with its own message when that is non-empty, else with "Failed to generate code."; the message is never empty |
| `GeminiService.GenerateAppCode` | services/geminiService.ts:13-53 | without a truthy key: error "API Key is missing." and no request sent; with one: exactly the mode's request is sent; success exactly when the response has non-empty text, and then the result is its cleanup; every error message is non-empty |
| `GeminiService.FailureMessages` | services/geminiService.ts:42-52 | with a key, a rejection yields its message or the fallback, and a missing or empty text yields "No code generated." |
| `AppController.ScreenOf` | App.tsx:49-155 | loading exactly while `isLoading`, naming the last mode; otherwise landing exactly when `generatedCode` is null or "", and the result screen with the code in the current view mode otherwise |
| `AppController.Start` | App.tsx:16-19 | starting a generation shows the loading screen and records exactly the prompt and mode given, leaving the code and view mode |
| `AppController.Settle` | App.tsx:20-27 | loading never survives a settle; success stores exactly the returned string; failure keeps `generatedCode`; view mode, last prompt and last mode are kept |
| `AppController.ResetState` | App.tsx:43-46 | `generatedCode` becomes null and `lastPrompt` '', and loading, view mode and last mode are kept |
| `AppController.SetView` | App.tsx:107-118 | a toggle sets the view mode and changes nothing else |
| `AppController.ExportOf` | App.tsx:30-36 | nothing is exported when `generatedCode` is null or ""; otherwise exactly `generatedCode` as index.html with type text/html |
| `AppController.Generate` | App.tsx:16-28 | after a whole `handleGenerate`, loading is off, the last prompt and mode are those given and the view mode is unchanged; the code becomes the cleaned response exactly when the key is present and the response has text, and is otherwise unchanged |
| `AppController.LandingImpliesNotLoading` | App.tsx:49-62 | the composer, shown only on the landing screen, always receives `isLoading` false |
| `AppController.FailureRestoresScreen` | App.tsx:23-27 | a failed generation returns to the screen that was showing before it started |
| `AppController.FailedRegenerateKeepsResult` | App.tsx:132 | a failed regenerate lands back on the result screen with the same code |
| `AppController.MissingKeyChangesNoCode` | services/geminiService.ts:14-16 | without a key no request is sent, the code is unchanged and the landing screen stays |
| `AppController.BareFenceResponseShowsLanding` | App.tsx:49 | from any state, a regenerate on the result screen included, a raw response of "```" replaces the code with "", shows the landing screen and leaves nothing to export |
| `AppController.SuccessShowsResult` | App.tsx:21-27 | a successful generation whose cleaned output is not blank shows that output in the selected view |
| `AppController.ResetFromResultShowsLanding` | App.tsx:43-49 | back from the result screen shows the landing screen, with nothing left to export, keeping view mode and last mode |
| `AppController.App.constructor` | App.tsx:10-14 | the initial state: no code, not loading, preview, empty prompt, FAST |
| `AppController.App.HandleGenerateStart` | App.tsx:16-19 | the three setter calls perform `Start` |
| `AppController.App.HandleGenerateSettle` | App.tsx:20-27 | the try/catch/finally performs `Settle` |
| `AppController.App.Regenerate` | App.tsx:132 | regenerate replays exactly the remembered prompt and mode and starts a generation with them |
| `AppController.App.Reset` | App.tsx:43-46 | the two setter calls perform `ResetState` |
| `AppController.App.ShowPreview` | App.tsx:107 | sets the view mode to preview and nothing else |
| `AppController.App.ShowCode` | App.tsx:118 | sets the view mode to code and nothing else |
| `AppController.App.HandleDownload` | App.tsx:30-41 | emits exactly the file `ExportOf` describes, changing no state |
| `InputBar.SendDisabled` | components/InputBar.tsx:84 | the send button's `disabled` expression: the trimmed input is empty or a request is loading |
| `InputBar.DisabledIffBlankOrLoading` | components/InputBar.tsx:84 | the send button is disabled exactly when the input is all whitespace or a request is loading |
| `InputBar.Composer.constructor` | components/InputBar.tsx:11-12 | the composer starts with empty input and FAST |
| `InputBar.Composer.SetInput` | components/InputBar.tsx:44 | typing replaces the input and keeps the mode |
| `InputBar.Composer.SelectFast` | components/InputBar.tsx:56 | the Fast toggle sets FAST whatever the prior mode (so it is idempotent) and keeps the input |
| `InputBar.Composer.SelectThinking` | components/InputBar.tsx:68 | the Think toggle sets THINKING whatever the prior mode and keeps the input |
| `InputBar.Composer.HandleSubmit` | components/InputBar.tsx:15-18 | nothing is sent exactly when the input is all whitespace or loading, which is exactly when the button is disabled; otherwise one send with the untrimmed input and the current mode; no field changes |
| `InputBar.Composer.HandleKeyDown` | components/InputBar.tsx:20-25 | Enter without Shift, and only that, prevents the default and submits; any other key, Enter with Shift included, sends nothing |

## Left out

- JsString.TrimStart: its contract says only that the result does not start with whitespace. That exactly the leading whitespace run is removed follows from its definition and the contract of `LeadingWhitespace`; `TrimOfPadded` states it for `Trim`.
- JsString.TrimEnd: likewise, its contract says only that the result does not end with whitespace; `TrailingWhitespace` and `TrimOfPadded` carry the rest.
- JsString.Trim: its contract gives no outer whitespace and a length bound; which characters it keeps is stated by `TrimOfPadded`, `TrimUnchanged` and `TrimEmptyIff`.
- The `GoogleGenAI` SDK call and the read of `process.env.API_KEY`: both are foreign I/O, so the credential and the call's outcome are inputs of `GenerateAppCode`.
- `console.error` and `alert`: side effects with no content to model.
- The download mechanics (Blob, object URL, anchor click): browser I/O; only the guard and the file name, type and content are modelled.
- components/PreviewFrame.tsx and components/CodeViewer.tsx: rendering only. The iframe sandbox is a browser-enforced boundary and cannot be verified from the source.
- The text area's auto-resize, all JSX markup and class names: presentation.
- async scheduling: each generation is a start step followed by one settle step. At most one is in flight because the loading screen renders neither the composer nor the regenerate button; concurrent settles are not modelled.
- Unmounting: the composer is unmounted on the loading and result screens, so its input and mode are reset when it reappears; the model has one `Composer` object and leaves remounting to the caller.
- `GeneratedCode` and `AppState` of types.ts: declared but unused by the application.
- JavaScript strings are UTF-16 code units, while a Dafny `char` is a Unicode scalar value: lone surrogates are not representable. No whitespace character or backtick is affected.
