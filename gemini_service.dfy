/**
 * The generation client of services/geminiService.ts. The network call to the
 * generative-text SDK is not modelled; its outcome is an input instead, and
 * the request the client would send is part of the output, so that "no call
 * was made" can be stated.
 */
module GeminiService {
  import opened Wrappers
  import opened Types
  import opened JsString

  /** The fixed instruction attached to every request, verbatim. */
  const SYSTEM_INSTRUCTION: string :=
    "\nYou are an expert Frontend AI Engineer. \n"
    + "Your task is to generate a COMPLETE, SINGLE-FILE HTML solution based on the user's request.\n"
    + "The file must include ALL necessary CSS (inside <style> tags) and JavaScript (inside <script> tags).\n"
    + "Do not use external CSS/JS files unless using a CDN for popular libraries (like Tailwind, React, Vue via CDN is okay).\n"
    + "ENSURE the UI is modern, responsive, and aesthetically pleasing.\n"
    + "OUTPUT FORMAT: Return ONLY the raw HTML code. Do NOT wrap it in markdown code blocks (e.g., ```html ... ```). Do not add introductory text.\n"

  const PRO_MODEL: string := "gemini-3-pro-preview"
  const FLASH_MODEL: string := "gemini-3-flash-preview"
  /** The reasoning budget attached in THINKING mode. */
  const MAX_THINKING_BUDGET: int := 32768

  const API_KEY_MISSING: string := "API Key is missing."
  const NO_CODE_GENERATED: string := "No code generated."
  const GENERATION_FAILED: string := "Failed to generate code."

  const FENCE: string := "```"
  const HTML_FENCE: string := "```html"

  datatype ThinkingConfig = ThinkingConfig(thinkingBudget: int)

  /** The arguments of one `generateContent` call. */
  datatype Request = Request(
    model: string,
    contents: string,
    systemInstruction: string,
    thinkingConfig: Option<ThinkingConfig>)

  /**
   * What the SDK call did: it rejected with an error whose `message` may be
   * missing, or it resolved with a response whose `text` may be missing.
   */
  datatype SdkOutcome = Rejected(message: Option<string>) | Responded(text: Option<string>)

  /** The request actually sent (if any) and what `generateAppCode` resolves or rejects with. */
  datatype Generation = Generation(sent: Option<Request>, result: Result<string, string>)

  /** The request built for a prompt: the mode picks the model and the thinking budget, nothing else. */
  function BuildRequest(prompt: string, mode: ModelMode): (q: Request)
    ensures q.contents == prompt && q.systemInstruction == SYSTEM_INSTRUCTION
    ensures mode == THINKING ==> q.model == PRO_MODEL && q.thinkingConfig == Some(ThinkingConfig(MAX_THINKING_BUDGET))
    ensures mode == FAST ==> q.model == FLASH_MODEL && q.thinkingConfig == None
  {
    var modelName := if mode == THINKING then PRO_MODEL else FLASH_MODEL;
    var thinkingConfig := if mode == THINKING then Some(ThinkingConfig(MAX_THINKING_BUDGET)) else None;
    Request(modelName, prompt, SYSTEM_INSTRUCTION, thinkingConfig)
  }

  /** `s.replace(/^p/, '')`: one occurrence of `p`, only at the very start. */
  function StripPrefix(s: string, p: string): (r: string)
    ensures StartsWith(s, p) ==> s == p + r
    ensures !StartsWith(s, p) ==> r == s
  {
    if StartsWith(s, p) then s[|p|..] else s
  }

  /** `s.replace(/p$/, '')`: one occurrence of `p`, only at the very end of the input. */
  function StripSuffix(s: string, p: string): (r: string)
    ensures EndsWith(s, p) ==> s == r + p
    ensures !EndsWith(s, p) ==> r == s
  {
    if EndsWith(s, p) then s[..|s| - |p|] else s
  }

  /**
   * The cleanup of a response text: an "```html" opener, then a bare "```"
   * opener, then a "```" closer that ends the text, each removed at most
   * once and in that order, and finally `trim`.
   */
  function Cleanup(text: string): (r: string)
    ensures NoOuterWhitespace(r)
    ensures |r| <= |text|
  {
    Trim(StripSuffix(StripPrefix(StripPrefix(text, HTML_FENCE), FENCE), FENCE))
  }

  /** The message of the error `generateAppCode` rethrows for a rejected call. */
  function ForwardedMessage(message: Option<string>): (m: string)
    ensures m != ""
    ensures Truthy(message) ==> m == message.value
    ensures !Truthy(message) ==> m == GENERATION_FAILED
  {
    if Truthy(message) then message.value else GENERATION_FAILED
  }

  /**
   * `generateAppCode(prompt, mode)` with the credential `apiKey` and the
   * outcome of the SDK call given explicitly.
   */
  function GenerateAppCode(apiKey: Option<string>, prompt: string, mode: ModelMode, outcome: SdkOutcome): (g: Generation)
    ensures !Truthy(apiKey) ==> g == Generation(None, Failure(API_KEY_MISSING))
    ensures Truthy(apiKey) ==> g.sent == Some(BuildRequest(prompt, mode))
    ensures g.result.Success? <==> Truthy(apiKey) && outcome.Responded? && Truthy(outcome.text)
    ensures g.result.Success? ==> g.result.value == Cleanup(outcome.text.value)
    ensures g.result.Failure? ==> g.result.error != ""
  {
    if !Truthy(apiKey) then
      Generation(None, Failure(API_KEY_MISSING))
    else
      var request := BuildRequest(prompt, mode);
      var result := match outcome
        case Rejected(message) => Failure(ForwardedMessage(message))
        case Responded(text) =>
          // the "No code generated." error is thrown inside the try block,
          // caught, and rethrown with its own (non-empty) message
          if !Truthy(text) then Failure(ForwardedMessage(Some(NO_CODE_GENERATED)))
          else Success(Cleanup(text.value));
      Generation(Some(request), result)
  }

  /** The two modes send the same prompt and instruction, to different models. */
  lemma ModesDifferOnlyInModelAndBudget(prompt: string)
    ensures BuildRequest(prompt, FAST).contents == BuildRequest(prompt, THINKING).contents
    ensures BuildRequest(prompt, FAST).systemInstruction == BuildRequest(prompt, THINKING).systemInstruction
    ensures BuildRequest(prompt, FAST).model != BuildRequest(prompt, THINKING).model
    ensures BuildRequest(prompt, FAST).thinkingConfig.None? && BuildRequest(prompt, THINKING).thinkingConfig.Some?
  {
  }

  /** With a credential, the error messages are exactly those of the three failure kinds. */
  lemma FailureMessages(apiKey: Option<string>, prompt: string, mode: ModelMode, outcome: SdkOutcome)
    requires Truthy(apiKey)
    ensures outcome.Rejected? ==>
      GenerateAppCode(apiKey, prompt, mode, outcome).result
        == Failure(if Truthy(outcome.message) then outcome.message.value else GENERATION_FAILED)
    ensures outcome.Responded? && !Truthy(outcome.text) ==>
      GenerateAppCode(apiKey, prompt, mode, outcome).result == Failure(NO_CODE_GENERATED)
  {
  }

  /** A response wrapped in an "```html" fence cleans to its trimmed inner text. */
  lemma CleanupUnwrapsHtmlFence(s: string)
    requires !StartsWith(s, FENCE)
    ensures Cleanup(HTML_FENCE + s + FENCE) == Trim(s)
  {
    var a := StripPrefix(HTML_FENCE + s + FENCE, HTML_FENCE);
    assert StartsWith(HTML_FENCE + s + FENCE, HTML_FENCE) by {
      assert (HTML_FENCE + s + FENCE)[..|HTML_FENCE|] == HTML_FENCE;
    }
    assert a == s + FENCE by {
      assert HTML_FENCE + s + FENCE == HTML_FENCE + (s + FENCE);
    }
    var b := StripPrefix(a, FENCE);
    if StartsWith(a, FENCE) {
      // only a short run of backticks lets the appended closer pass for an opener
      assert |s| < 3;
      assert b == s by {
        if |s| == 1 { assert a[0] == '`'; assert s == "`"; }
        else if |s| == 2 { assert a[0] == '`' && a[1] == '`'; assert s == "``"; }
      }
      assert !EndsWith(b, FENCE);
    } else {
      assert b == s + FENCE;
      assert EndsWith(b, FENCE);
      assert StripSuffix(b, FENCE) == s;
    }
  }

  /** Text with neither an opening nor a closing fence is only trimmed. */
  lemma CleanupOfUnfenced(text: string)
    requires !StartsWith(text, FENCE) && !EndsWith(text, FENCE)
    ensures Cleanup(text) == Trim(text)
  {
    assert !StartsWith(text, HTML_FENCE) by {
      assert HTML_FENCE[..3] == FENCE;
    }
  }

  /** The three replacements leave a text ending in whitespace, and not starting with a fence, alone. */
  lemma NoFenceStrippedBeforeWhitespace(body: string, w: string)
    requires !StartsWith(body + FENCE, FENCE)
    requires AllWhitespace(w) && w != []
    ensures StripSuffix(StripPrefix(StripPrefix(body + FENCE + w, HTML_FENCE), FENCE), FENCE) == body + FENCE + w
  {
    var text := body + FENCE + w;
    assert text[..3] == (body + FENCE)[..3];
    assert !StartsWith(text, HTML_FENCE) by {
      assert HTML_FENCE[..3] == FENCE;
    }
    assert !EndsWith(text, FENCE) by {
      assert text[|text| - 1] == w[|w| - 1];
      assert IsWhitespace(w[|w| - 1]);
    }
  }

  /**
   * A closing fence followed by whitespace (a trailing newline, say) is not
   * removed: only the whitespace around it is.
   */
  lemma CleanupKeepsFenceBeforeWhitespace(body: string, w: string)
    requires !StartsWith(body + FENCE, FENCE)
    requires AllWhitespace(w) && w != []
    ensures Cleanup(body + FENCE + w) == TrimStart(body) + FENCE
    ensures EndsWith(Cleanup(body + FENCE + w), FENCE)
  {
    var text := body + FENCE + w;
    NoFenceStrippedBeforeWhitespace(body, w);
    assert Cleanup(text) == Trim(text);
    assert NoOuterWhitespace(FENCE);
    TrimKeepsTail(body, FENCE, w);
    var r := TrimStart(body) + FENCE;
    assert r[|r| - 3..] == FENCE;
  }

  /**
   * The same holds for a response wrapped in "```html" ... "```" and then
   * followed by whitespace: the opener goes, the closing fence stays.
   */
  lemma CleanupKeepsWrappedFenceBeforeWhitespace(s: string, w: string)
    requires !StartsWith(s + FENCE, FENCE)
    requires AllWhitespace(w) && w != []
    ensures Cleanup(HTML_FENCE + s + FENCE + w) == TrimStart(s) + FENCE
    ensures EndsWith(Cleanup(HTML_FENCE + s + FENCE + w), FENCE)
  {
    var text := HTML_FENCE + s + FENCE + w;
    var a := s + FENCE + w;
    assert text == HTML_FENCE + a;
    assert StartsWith(text, HTML_FENCE) by {
      assert text[..|HTML_FENCE|] == HTML_FENCE;
    }
    assert StripPrefix(text, HTML_FENCE) == a;
    NoFenceStrippedBeforeWhitespace(s, w);
    assert !StartsWith(a, HTML_FENCE) by {
      assert a[..3] == (s + FENCE)[..3];
      assert HTML_FENCE[..3] == FENCE;
    }
    assert Cleanup(text) == Trim(a);
    assert NoOuterWhitespace(FENCE);
    TrimKeepsTail(s, FENCE, w);
    var r := TrimStart(s) + FENCE;
    assert r[|r| - 3..] == FENCE;
  }

  /**
   * A body wrapped in bare "```" fences and followed by whitespace keeps its
   * closing fence too. A body beginning with "html" makes the opener an
   * "```html" one, which is the case of `CleanupKeepsWrappedFenceBeforeWhitespace`.
   */
  lemma CleanupKeepsBareWrappedFenceBeforeWhitespace(s: string, w: string)
    requires !StartsWith(FENCE + s, HTML_FENCE)
    requires !StartsWith(s + FENCE, FENCE)
    requires AllWhitespace(w) && w != []
    ensures Cleanup(FENCE + s + FENCE + w) == TrimStart(s) + FENCE
    ensures EndsWith(Cleanup(FENCE + s + FENCE + w), FENCE)
  {
    var text := FENCE + s + FENCE + w;
    var a := s + FENCE + w;
    assert text == FENCE + a;
    assert !StartsWith(text, HTML_FENCE) by {
      if |FENCE + s| >= |HTML_FENCE| {
        assert text[..|HTML_FENCE|] == (FENCE + s)[..|HTML_FENCE|];
      } else {
        assert text[|FENCE + s|] == '`';
        assert HTML_FENCE[|FENCE + s|] != '`';
      }
    }
    assert StartsWith(text, FENCE) by {
      assert text[..|FENCE|] == FENCE;
    }
    assert StripPrefix(StripPrefix(text, HTML_FENCE), FENCE) == a;
    NoFenceStrippedBeforeWhitespace(s, w);
    assert !StartsWith(a, HTML_FENCE) by {
      assert a[..3] == (s + FENCE)[..3];
      assert HTML_FENCE[..3] == FENCE;
    }
    assert Cleanup(text) == Trim(a);
    assert NoOuterWhitespace(FENCE);
    TrimKeepsTail(s, FENCE, w);
    var r := TrimStart(s) + FENCE;
    assert r[|r| - 3..] == FENCE;
  }

  /**
   * When the bare-opener replace reaches a backtick of the closing fence, the
   * fence does not survive: here opener and closer overlap in two backticks.
   */
  lemma OverlappingFenceIsConsumed()
    ensures Cleanup("````\n") == "`"
  {
    var text := "````\n";
    assert !StartsWith(text, HTML_FENCE);
    assert StartsWith(text, FENCE);
    assert StripPrefix(text, FENCE) == "`\n";
    assert !EndsWith("`\n", FENCE);
    TrimOfPadded([], "`", "\n");
    assert [] + "`" + "\n" == "`\n";
  }

  /** The "```html" replace never reaches a fence that whitespace follows. */
  lemma HtmlStripStopsBeforeFence(b: string, w: string)
    requires AllWhitespace(w) && w != []
    ensures StripPrefix(b + FENCE + w, HTML_FENCE) == StripPrefix(b, HTML_FENCE) + FENCE + w
  {
    var t := b + FENCE + w;
    if StartsWith(b, HTML_FENCE) {
      assert t[..|HTML_FENCE|] == b[..|HTML_FENCE|];
      assert t[|HTML_FENCE|..] == b[|HTML_FENCE|..] + FENCE + w;
    } else {
      // the "html" of an opener cannot come from the fence or from the whitespace
      if |b| >= |HTML_FENCE| {
        assert t[..|HTML_FENCE|] == b[..|HTML_FENCE|];
      } else if |t| > 6 {
        // the final "l" would fall on a backtick of the fence or on whitespace
        if |b| <= 3 { assert t[6] == w[3 - |b|]; } else { assert t[6] == FENCE[6 - |b|]; }
        assert t[6] != HTML_FENCE[6];
      }
    }
  }

  /**
   * The bare-opener replace reaches the closing fence exactly when all that
   * precedes it is "", "`" or "``".
   */
  lemma BareStripBeforeFence(c: string, w: string)
    requires AllWhitespace(w) && w != []
    ensures c in {"", "`", "``"} ==> StripPrefix(c + FENCE + w, FENCE) == c + w
    ensures c !in {"", "`", "``"} ==> StripPrefix(c + FENCE + w, FENCE) == StripPrefix(c, FENCE) + FENCE + w
  {
    var t := c + FENCE + w;
    if c in {"", "`", "``"} {
      assert c + FENCE == FENCE + c;
      assert t == FENCE + (c + w);
    } else if |c| >= 3 {
      assert t[..3] == c[..3];
      if StartsWith(c, FENCE) { assert t[3..] == c[3..] + FENCE + w; }
    } else {
      if |c| == 1 { assert c == [c[0]]; assert t[0] == c[0]; }
      else { assert c == [c[0], c[1]]; assert t[0] == c[0] && t[1] == c[1]; }
    }
  }

  /**
   * For a text ending in "```" and then whitespace, the fence survives
   * cleanup exactly when what precedes it, once a leading "```html" is
   * removed, is not "", "`" or "``".
   */
  lemma FenceBeforeWhitespaceKeptIff(b: string, w: string)
    requires AllWhitespace(w) && w != []
    ensures EndsWith(Cleanup(b + FENCE + w), FENCE) <==> StripPrefix(b, HTML_FENCE) !in {"", "`", "``"}
  {
    var c := StripPrefix(b, HTML_FENCE);
    CleanupBeforeFence(b, w);
    if c in {"", "`", "``"} {
      ShortRunTrims(c, w);
    } else {
      LongRunKeepsFence(c, w);
    }
  }

  /** Cleanup of a text ending in "```" and whitespace, with the "```html" replace done. */
  lemma CleanupBeforeFence(b: string, w: string)
    requires AllWhitespace(w) && w != []
    ensures Cleanup(b + FENCE + w) == Trim(StripPrefix(StripPrefix(b, HTML_FENCE) + FENCE + w, FENCE))
  {
    var c := StripPrefix(b, HTML_FENCE);
    HtmlStripStopsBeforeFence(b, w);
    BareStripBeforeFence(c, w);
    var d := StripPrefix(c + FENCE + w, FENCE);
    assert !EndsWith(d, FENCE) by {
      assert d[|d| - 1] == w[|w| - 1];
      assert IsWhitespace(d[|d| - 1]);
    }
  }

  /** Anything but a run of fewer than three backticks before the fence leaves it in place. */
  lemma LongRunKeepsFence(c: string, w: string)
    requires AllWhitespace(w) && w != [] && c !in {"", "`", "``"}
    ensures EndsWith(Trim(StripPrefix(c + FENCE + w, FENCE)), FENCE)
  {
    BareStripBeforeFence(c, w);
    assert NoOuterWhitespace(FENCE);
    TrimKeepsTail(StripPrefix(c, FENCE), FENCE, w);
    var r := TrimStart(StripPrefix(c, FENCE)) + FENCE;
    assert r[|r| - 3..] == FENCE;
  }

  /** A run of fewer than three backticks before the fence lets the opener replace eat into it. */
  lemma ShortRunTrims(c: string, w: string)
    requires c in {"", "`", "``"} && AllWhitespace(w) && w != []
    ensures !EndsWith(Trim(StripPrefix(c + FENCE + w, FENCE)), FENCE)
  {
    BareStripBeforeFence(c, w);
    TrimOfPadded([], c, w);
    assert [] + c + w == c + w;
  }

  /** Cleanup can turn a present, non-empty response into the empty string. */
  lemma BareFenceCleansToEmpty()
    ensures Cleanup(FENCE) == ""
  {
    assert StartsWith(FENCE, FENCE);
  }
}
