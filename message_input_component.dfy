/** The chat input of `src/components/MessageInput.tsx`: a draft that is
    sent trimmed and then cleared, and a send button that replaces the voice
    button once the draft has text. `onSendMessage` is modelled as an
    outbox of the texts it received. */
module MessageInputComponent {
  import opened Wrappers
  import Text
  import opened MessageDraft

  /** The button at the end of the input row. */
  datatype TrailingButton = SendButton(disabled: bool) | VoiceButton

  /** `message.trim() ? <send> : <voice>`, the send button disabled while
      loading. */
  function ButtonFor(draft: string, isLoading: bool): (b: TrailingButton)
    ensures b.SendButton? <==> !Text.AllWhitespace(draft)
    ensures b.SendButton? ==> b.disabled == isLoading
  {
    Text.TrimEmptyIff(draft);
    if Text.Trim(draft) != "" then SendButton(isLoading) else VoiceButton
  }

  /** An enabled send button is shown exactly when a click would send. */
  lemma EnabledSendButtonSends(draft: string, isLoading: bool)
    ensures ButtonFor(draft, isLoading) == SendButton(false) <==> Submission(draft, isLoading).Some?
  {
  }

  class MessageInput {
    /** The `message` state. */
    var message: string
    /** Every text passed to `onSendMessage`, oldest first. */
    var sent: seq<string>

    constructor()
      ensures message == "" && sent == []
    {
      message := "";
      sent := [];
    }

    /** The textarea's `onChange`. */
    method Change(value: string)
      modifies this
      ensures message == value && sent == old(sent)
    {
      message := value;
    }

    /** `handleSubmit`: send the trimmed draft once and clear it, or do
        nothing. */
    method HandleSubmit(isLoading: bool)
      modifies this
      ensures Submission(old(message), isLoading).Some? ==>
        sent == old(sent) + [Submission(old(message), isLoading).value] && message == ""
      ensures Submission(old(message), isLoading).None? ==> sent == old(sent) && message == old(message)
    {
      var trimmedMessage := Text.Trim(message);
      if trimmedMessage != "" && !isLoading {
        sent := sent + [trimmedMessage];
        message := "";
      }
    }

    /** `handleKeyDown`: Enter without Shift submits; any other key leaves
        the draft to the textarea. */
    method HandleKeyDown(key: string, shiftKey: bool, isLoading: bool)
      modifies this
      ensures SubmitsOnKey(key, shiftKey) && Submission(old(message), isLoading).Some? ==>
        sent == old(sent) + [Submission(old(message), isLoading).value] && message == ""
      ensures !SubmitsOnKey(key, shiftKey) || Submission(old(message), isLoading).None? ==>
        sent == old(sent) && message == old(message)
    {
      if key == "Enter" && !shiftKey {
        HandleSubmit(isLoading);
      }
    }
  }
}
