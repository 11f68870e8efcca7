/**
 * The application controller of App.tsx: its five state cells, the handlers
 * that update them, and the choice of screen. The transitions are first given
 * as functions on a state value; the class `App` then performs them step by
 * step on its fields, and each handler is proved to perform its function.
 */
module AppController {
  import opened Wrappers
  import opened Types
  import opened JsString
  import GeminiService

  datatype ViewMode = Preview | Code

  /** The controller's state: one field per `useState` cell. */
  datatype AppState = AppState(
    generatedCode: Option<string>,
    isLoading: bool,
    viewMode: ViewMode,
    lastPrompt: string,
    lastMode: ModelMode)

  /** What is on screen. The loading screen names the model in use; the result screen shows `generatedCode || ''` in the selected view. */
  datatype Screen = Landing | Loading(mode: ModelMode) | ResultView(view: ViewMode, code: string)

  /** The file the export action downloads. */
  datatype Export = Export(fileName: string, mimeType: string, content: string)

  /** The state of a freshly mounted application. */
  const INITIAL: AppState := AppState(None, false, Preview, "", FAST)

  /** The screen rendered for a state, with App.tsx's order of tests: landing, then loading, then result. */
  function ScreenOf(s: AppState): (sc: Screen)
    ensures sc.Loading? <==> s.isLoading
    ensures sc == Landing <==> !s.isLoading && !Truthy(s.generatedCode)
    ensures sc.ResultView? <==> !s.isLoading && s.generatedCode.Some? && s.generatedCode.value != ""
    ensures sc.Loading? ==> sc.mode == s.lastMode
    ensures sc.ResultView? ==> sc == ResultView(s.viewMode, s.generatedCode.value)
  {
    if !Truthy(s.generatedCode) && !s.isLoading then Landing
    else if s.isLoading then Loading(s.lastMode)
    else ResultView(s.viewMode, match s.generatedCode case Some(c) => c case None => "")
  }

  /** The synchronous first half of `handleGenerate`. */
  function Start(s: AppState, prompt: string, mode: ModelMode): (t: AppState)
    ensures ScreenOf(t) == Loading(mode)
    ensures t.lastPrompt == prompt && t.lastMode == mode
    ensures t.generatedCode == s.generatedCode && t.viewMode == s.viewMode
  {
    s.(isLoading := true, lastPrompt := prompt, lastMode := mode)
  }

  /**
   * The second half of `handleGenerate`, once `generateAppCode` settles: a
   * result replaces the code, an error leaves it, and loading ends either way.
   */
  function Settle(s: AppState, r: Result<string, string>): (t: AppState)
    ensures !t.isLoading
    ensures r.Success? ==> t.generatedCode == Some(r.value)
    ensures r.Failure? ==> t.generatedCode == s.generatedCode
    ensures t.viewMode == s.viewMode && t.lastPrompt == s.lastPrompt && t.lastMode == s.lastMode
  {
    match r
    case Success(code) => s.(generatedCode := Some(code), isLoading := false)
    case Failure(_) => s.(isLoading := false)
  }

  /** The back button: clears the result and the remembered prompt, nothing else. */
  function ResetState(s: AppState): (t: AppState)
    ensures t.generatedCode == None && t.lastPrompt == ""
    ensures t.isLoading == s.isLoading && t.viewMode == s.viewMode && t.lastMode == s.lastMode
  {
    s.(generatedCode := None, lastPrompt := "")
  }

  /** One of the two view toggles. */
  function SetView(s: AppState, v: ViewMode): (t: AppState)
    ensures t.viewMode == v
    ensures t.generatedCode == s.generatedCode && t.isLoading == s.isLoading
    ensures t.lastPrompt == s.lastPrompt && t.lastMode == s.lastMode
  {
    s.(viewMode := v)
  }

  /** What the export button downloads: nothing without a non-empty result, else the result verbatim. */
  function ExportOf(s: AppState): (e: Option<Export>)
    ensures e.None? <==> !Truthy(s.generatedCode)
    ensures e.Some? ==> e.value == Export("index.html", "text/html", s.generatedCode.value)
  {
    if !Truthy(s.generatedCode) then None
    else Some(Export("index.html", "text/html", s.generatedCode.value))
  }

  /** The whole of `handleGenerate`, with the client's credential and the SDK's outcome as inputs. */
  function Generate(s: AppState, prompt: string, mode: ModelMode, apiKey: Option<string>,
                    outcome: GeminiService.SdkOutcome): (t: AppState)
    ensures !t.isLoading && t.lastPrompt == prompt && t.lastMode == mode && t.viewMode == s.viewMode
    ensures Truthy(apiKey) && outcome.Responded? && Truthy(outcome.text) ==>
      t.generatedCode == Some(GeminiService.Cleanup(outcome.text.value))
    ensures !(Truthy(apiKey) && outcome.Responded? && Truthy(outcome.text)) ==> t.generatedCode == s.generatedCode
  {
    Settle(Start(s, prompt, mode), GeminiService.GenerateAppCode(apiKey, prompt, mode, outcome).result)
  }

  /** The controller is rendered on exactly one screen; the composer (landing screen) never sees `isLoading`. */
  lemma LandingImpliesNotLoading(s: AppState)
    ensures ScreenOf(s) == Landing ==> !s.isLoading
  {
  }

  /** A failed generation goes back to whichever screen was showing before it started. */
  lemma FailureRestoresScreen(s: AppState, prompt: string, mode: ModelMode, error: string)
    requires !s.isLoading
    ensures ScreenOf(Settle(Start(s, prompt, mode), Failure(error))) == ScreenOf(s)
  {
  }

  /** In particular a failed regenerate lands back on the result screen, with the same code. */
  lemma FailedRegenerateKeepsResult(s: AppState, error: string)
    requires ScreenOf(s).ResultView?
    ensures ScreenOf(Settle(Start(s, s.lastPrompt, s.lastMode), Failure(error))) == ScreenOf(s)
    ensures Settle(Start(s, s.lastPrompt, s.lastMode), Failure(error)).generatedCode == s.generatedCode
  {
    FailureRestoresScreen(s, s.lastPrompt, s.lastMode, error);
  }

  /** Without a credential nothing is sent and the code is untouched; the landing screen stays. */
  lemma MissingKeyChangesNoCode(s: AppState, prompt: string, mode: ModelMode, apiKey: Option<string>,
                                outcome: GeminiService.SdkOutcome)
    requires !Truthy(apiKey)
    ensures GeminiService.GenerateAppCode(apiKey, prompt, mode, outcome).sent == None
    ensures Generate(s, prompt, mode, apiKey, outcome).generatedCode == s.generatedCode
    ensures ScreenOf(s) == Landing ==> ScreenOf(Generate(s, prompt, mode, apiKey, outcome)) == Landing
  {
  }

  /**
   * A response of just "```" passes the client's empty-text check but cleans
   * to "", which the landing-screen test treats as no result: from any state
   * (a regenerate on the result screen included) the shown result is replaced
   * by "", the landing screen appears and there is nothing left to export.
   */
  lemma BareFenceResponseShowsLanding(s: AppState, prompt: string, mode: ModelMode, key: string)
    requires key != ""
    ensures Generate(s, prompt, mode, Some(key), GeminiService.Responded(Some("```"))).generatedCode == Some("")
    ensures ScreenOf(Generate(s, prompt, mode, Some(key), GeminiService.Responded(Some("```")))) == Landing
    ensures ExportOf(Generate(s, prompt, mode, Some(key), GeminiService.Responded(Some("```")))) == None
  {
    GeminiService.BareFenceCleansToEmpty();
  }

  /** A successful generation with non-blank output shows it, in the view that was selected. */
  lemma SuccessShowsResult(s: AppState, prompt: string, mode: ModelMode, key: string, text: string)
    requires key != "" && !AllWhitespace(GeminiService.Cleanup(text)) && text != ""
    ensures ScreenOf(Generate(s, prompt, mode, Some(key), GeminiService.Responded(Some(text))))
      == ResultView(s.viewMode, GeminiService.Cleanup(text))
  {
    TrimEmptyIff(GeminiService.Cleanup(text));
  }

  /** Back from the result screen always reaches the landing screen, and nothing can be exported there. */
  lemma ResetFromResultShowsLanding(s: AppState)
    requires ScreenOf(s).ResultView?
    ensures ScreenOf(ResetState(s)) == Landing && ExportOf(ResetState(s)) == None
    ensures ResetState(s).viewMode == s.viewMode && ResetState(s).lastMode == s.lastMode
  {
  }

  /** The controller's state cells, and the handlers bound to its buttons. */
  class App {
    var generatedCode: Option<string>
    var isLoading: bool
    var viewMode: ViewMode
    var lastPrompt: string
    var lastMode: ModelMode

    function State(): AppState
      reads this
    {
      AppState(generatedCode, isLoading, viewMode, lastPrompt, lastMode)
    }

    constructor ()
      ensures State() == INITIAL
    {
      generatedCode := None;
      isLoading := false;
      viewMode := Preview;
      lastPrompt := "";
      lastMode := FAST;
    }

    /** `handleGenerate` up to its `await`. */
    method HandleGenerateStart(prompt: string, mode: ModelMode)
      modifies this
      ensures State() == Start(old(State()), prompt, mode)
    {
      isLoading := true;
      lastPrompt := prompt;
      lastMode := mode;
    }

    /** `handleGenerate` after its `await`: the `try`, the `catch` and the `finally`. */
    method HandleGenerateSettle(r: Result<string, string>)
      modifies this
      ensures State() == Settle(old(State()), r)
    {
      match r {
        case Success(code) =>
          generatedCode := Some(code);
        case Failure(_) =>
      }
      isLoading := false;
    }

    /** The regenerate button replays the remembered prompt and mode. */
    method Regenerate() returns (prompt: string, mode: ModelMode)
      modifies this
      ensures prompt == old(lastPrompt) && mode == old(lastMode)
      ensures State() == Start(old(State()), old(lastPrompt), old(lastMode))
    {
      prompt, mode := lastPrompt, lastMode;
      HandleGenerateStart(prompt, mode);
    }

    method Reset()
      modifies this
      ensures State() == ResetState(old(State()))
    {
      generatedCode := None;
      lastPrompt := "";
    }

    method ShowPreview()
      modifies this
      ensures State() == SetView(old(State()), Preview)
    {
      viewMode := Preview;
    }

    method ShowCode()
      modifies this
      ensures State() == SetView(old(State()), Code)
    {
      viewMode := Code;
    }

    /** `handleDownload`: the file it hands to the browser, if any. */
    method HandleDownload() returns (e: Option<Export>)
      ensures e == ExportOf(State())
    {
      if !Truthy(generatedCode) {
        return None;
      }
      e := Some(Export("index.html", "text/html", generatedCode.value));
    }
  }
}
