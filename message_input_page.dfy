/** The form input of `src/pages/MessageInput.tsx`: the same draft rule as
    the component version, behind a submit button that is disabled instead
    of hidden, with a character count and a helper line. `onSendMessage` is
    modelled as an outbox of the texts it received. */
module MessageInputPage {
  import Text
  import opened MessageDraft

  const SendingText := "Sending..."
  const HintText := "Press Enter to send, Shift+Enter for new line"

  /** `disabled={!message.trim() || isLoading}`. */
  predicate SendDisabled(draft: string, isLoading: bool) {
    Text.Trim(draft) == "" || isLoading
  }

  /** The submit button is enabled exactly when submitting would send. */
  lemma DisabledIffNothingToSend(draft: string, isLoading: bool)
    ensures !SendDisabled(draft, isLoading) <==> Submission(draft, isLoading).Some?
  {
    Text.TrimEmptyIff(draft);
  }

  /** The helper line under the input. */
  function HelperText(isLoading: bool): (t: string)
    ensures t == SendingText <==> isLoading
  {
    if isLoading then SendingText else HintText
  }

  /** The character count under the input: `message.length`, in UTF-16
      code units. */
  function CharCount(draft: string): (n: nat)
    ensures |draft| <= n <= 2 * |draft|
  {
    Text.Length(draft)
  }

  /** `message.length > 0`: the count is shown for any non-empty draft,
      white space included. */
  predicate ShowsCharCount(draft: string) {
    CharCount(draft) > 0
  }

  /** A whitespace-only draft shows a count but cannot be sent. */
  lemma WhitespaceDraftCountedNotSent(draft: string, isLoading: bool)
    requires draft != [] && Text.AllWhitespace(draft)
    ensures ShowsCharCount(draft) && SendDisabled(draft, isLoading)
  {
    Text.TrimEmptyIff(draft);
  }

  class MessageInput {
    /** The `message` state. */
    var message: string
    /** Every text passed to `onSendMessage`, oldest first. */
    var sent: seq<string>

    constructor()
      ensures message == "" && sent == []
    {
      message := "";
      sent := [];
    }

    /** The textarea's `onChange`. */
    method Change(value: string)
      modifies this
      ensures message == value && sent == old(sent)
    {
      message := value;
    }

    /** `handleSubmit`: return early on an empty trimmed draft or while
        loading, otherwise send it and clear the draft. */
    method HandleSubmit(isLoading: bool)
      modifies this
      ensures Submission(old(message), isLoading).Some? ==>
        sent == old(sent) + [Submission(old(message), isLoading).value] && message == ""
      ensures Submission(old(message), isLoading).None? ==> sent == old(sent) && message == old(message)
    {
      var trimmedMessage := Text.Trim(message);
      if trimmedMessage == "" || isLoading {
        return;
      }
      sent := sent + [trimmedMessage];
      message := "";
    }

    /** `handleKeyDown`: Enter without Shift submits the form. */
    method HandleKeyDown(key: string, shiftKey: bool, isLoading: bool)
      modifies this
      ensures SubmitsOnKey(key, shiftKey) && Submission(old(message), isLoading).Some? ==>
        sent == old(sent) + [Submission(old(message), isLoading).value] && message == ""
      ensures !SubmitsOnKey(key, shiftKey) || Submission(old(message), isLoading).None? ==>
        sent == old(sent) && message == old(message)
    {
      if key == "Enter" && !shiftKey {
        HandleSubmit(isLoading);
      }
    }
  }
}
