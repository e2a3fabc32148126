/** The submit rule shared by the two message inputs: the draft is sent
    trimmed, and only when something is left and no reply is pending. */
module MessageDraft {
  import opened Wrappers
  import Text

  /** The text handed to `onSendMessage`, if any. */
  function Submission(draft: string, isLoading: bool): (r: Option<string>)
    ensures r.Some? <==> !Text.AllWhitespace(draft) && !isLoading
    ensures r.Some? ==> r.value == Text.Trim(draft) && r.value != ""
  {
    Text.TrimEmptyIff(draft);
    if Text.Trim(draft) != "" && !isLoading then Some(Text.Trim(draft)) else None
  }

  /** What is sent has no surrounding white space: submitting it again would
      send the same text. */
  lemma SubmissionIsStable(draft: string)
    requires Submission(draft, false).Some?
    ensures Submission(Submission(draft, false).value, false) == Submission(draft, false)
  {
    Text.TrimIdempotent(draft);
    Text.TrimEmptyIff(Text.Trim(draft));
  }

  /** `e.key === 'Enter' && !e.shiftKey`. */
  predicate SubmitsOnKey(key: string, shiftKey: bool) {
    key == "Enter" && !shiftKey
  }

  /** `Math.min(textarea.scrollHeight, 120)`, the auto-resize height. */
  function TextareaHeight(scrollHeight: int): (h: int)
    ensures h <= 120 && h <= scrollHeight
    ensures h == scrollHeight || h == 120
  {
    if scrollHeight < 120 then scrollHeight else 120
  }
}
