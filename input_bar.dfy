/**
 * The request composer of components/InputBar.tsx: the text and mode it
 * holds, the submit guard, the Enter/Shift rule and the send button's
 * disabled state. `isLoading` is a property handed down by the controller,
 * so it is a parameter here; `onSend` is modelled by returning the call it
 * would receive.
 */
module InputBar {
  import opened Wrappers
  import opened Types
  import opened JsString

  /** One call of `onSend(prompt, mode)`. */
  datatype Send = Send(prompt: string, mode: ModelMode)

  /** The two fields of a keyboard event that `handleKeyDown` reads. */
  datatype KeyEvent = KeyEvent(key: string, shiftKey: bool)

  /** What a key press does: whether the browser's default (a newline) is prevented, and what is sent. */
  datatype KeyResult = KeyResult(preventDefault: bool, sent: Option<Send>)

  /** The send button's `disabled` expression. */
  predicate SendDisabled(input: string, isLoading: bool) {
    Trim(input) == "" || isLoading
  }

  /** The button is disabled exactly for the blank or busy inputs on which a submit would do nothing. */
  lemma DisabledIffBlankOrLoading(input: string, isLoading: bool)
    ensures SendDisabled(input, isLoading) <==> AllWhitespace(input) || isLoading
  {
    TrimEmptyIff(input);
  }

  class Composer {
    var input: string
    var mode: ModelMode

    constructor ()
      ensures input == "" && mode == FAST
    {
      input := "";
      mode := FAST;
    }

    /** The text area's `onChange`. */
    method SetInput(text: string)
      modifies this
      ensures input == text && mode == old(mode)
    {
      input := text;
    }

    /** The "Fast" toggle: the same mode whatever was selected, so pressing it twice is pressing it once. */
    method SelectFast()
      modifies this
      ensures mode == FAST && input == old(input)
    {
      mode := FAST;
    }

    /** The "Think" toggle. */
    method SelectThinking()
      modifies this
      ensures mode == THINKING && input == old(input)
    {
      mode := THINKING;
    }

    /**
     * `handleSubmit`: nothing for blank input or while loading, otherwise one
     * `onSend` with the untrimmed text and the current mode. It changes no field.
     */
    method HandleSubmit(isLoading: bool) returns (sent: Option<Send>)
      ensures sent.None? <==> AllWhitespace(input) || isLoading
      ensures sent.None? <==> SendDisabled(input, isLoading)
      ensures sent.Some? ==> sent.value == Send(input, mode)
    {
      TrimEmptyIff(input);
      if Trim(input) == "" || isLoading {
        return None;
      }
      sent := Some(Send(input, mode));
    }

    /** `handleKeyDown`: Enter without Shift submits instead of inserting a newline; every other key is left to the browser. */
    method HandleKeyDown(e: KeyEvent, isLoading: bool) returns (r: KeyResult)
      ensures r.preventDefault <==> e.key == "Enter" && !e.shiftKey
      ensures !r.preventDefault ==> r.sent == None
      ensures r.preventDefault ==> (r.sent.None? <==> SendDisabled(input, isLoading))
      ensures r.sent.Some? ==> r.sent.value == Send(input, mode)
    {
      if e.key == "Enter" && !e.shiftKey {
        var sent := HandleSubmit(isLoading);
        return KeyResult(true, sent);
      }
      r := KeyResult(false, None);
    }
  }
}
