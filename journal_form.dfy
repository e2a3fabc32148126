/** The journal entry form of `src/components/journal/JournalFormModal.tsx`:
    how the saved entry is built from the fields, and the submitting and
    error flags around the save. `onSave` and `onClose` are the parent's;
    the outcome of the save is a parameter and the calls of `onClose` are
    counted. */
module JournalForm {
  import opened Wrappers
  import Text

  const SaveFailedMessage := "Failed to save entry."
  const Ellipsis := "..."
  const SnippetLength := 100

  datatype JournalEntry = JournalEntry(id: string, title: string, date: string, imageUrl: Option<string>, snippet: string, content: string)

  /** What `onSave` receives: a new entry without an id, or the edited
      entry. */
  datatype EntryData =
    | NewEntry(title: string, date: string, imageUrl: string, content: string, snippet: string)
    | EditedEntry(entry: JournalEntry)

  /** `content.substring(0, 100) + '...'`. */
  function Snippet(content: string): string {
    Text.Prefix(content, SnippetLength) + Ellipsis
  }

  /** The snippet is the longest prefix of the content within 100 UTF-16
      code units followed by `'...'`, which is added even when nothing was
      cut. */
  lemma SnippetShape(content: string)
    ensures var k := |Snippet(content)| - 3;
      && 0 <= k <= |content| && Snippet(content)[..k] == content[..k] && Snippet(content)[k..] == Ellipsis
      && Text.Length(content[..k]) <= SnippetLength
      && (Text.Length(content) > SnippetLength ==>
            k < |content| && (Text.Length(content[..k]) == SnippetLength
            || (Text.Length(content[..k]) == SnippetLength - 1 && Text.CodeUnits(content[k]) == 2)))
    ensures Text.Length(content) <= SnippetLength ==> Snippet(content) == content + Ellipsis
  {
    var p := Text.Prefix(content, SnippetLength);
    assert Snippet(content)[..|p|] == p;
  }

  /** For text inside the Basic Multilingual Plane the snippet is the first
      100 characters and `'...'`. */
  lemma SnippetOfPlainText(content: string)
    requires forall i :: 0 <= i < |content| ==> Text.CodeUnits(content[i]) == 1
    ensures Snippet(content) == (if |content| <= SnippetLength then content else content[..SnippetLength]) + Ellipsis
  {
    Text.PrefixOfPlainText(content, SnippetLength);
  }

  /** The `entryData` of `handleSubmit`. */
  function BuildEntry(entryToEdit: Option<JournalEntry>, title: string, date: string, imageUrl: string, content: string): (d: EntryData)
    ensures entryToEdit.None? ==> d == NewEntry(title, date, imageUrl, content, Snippet(content))
    ensures entryToEdit.Some? ==> d.EditedEntry? && d.entry.id == entryToEdit.value.id && d.entry.snippet == entryToEdit.value.snippet
    ensures entryToEdit.Some? ==> d.EditedEntry? && d.entry.title == title && d.entry.date == date
    ensures entryToEdit.Some? ==> d.EditedEntry? && d.entry.imageUrl == Some(imageUrl) && d.entry.content == content
  {
    match entryToEdit
    case None => NewEntry(title, date, imageUrl, content, Snippet(content))
    case Some(e) => EditedEntry(e.(title := title, date := date, imageUrl := Some(imageUrl), content := content))
  }

  /** Editing and saving unchanged fields keeps the entry, apart from an
      absent image URL, which is saved as the empty string. */
  lemma EditWithSameFieldsKeepsEntry(e: JournalEntry)
    ensures BuildEntry(Some(e), e.title, e.date, e.imageUrl.GetOr(""), e.content) == EditedEntry(e.(imageUrl := Some(e.imageUrl.GetOr(""))))
  {
  }

  /** `err.message || 'Failed to save entry.'`. */
  function SaveError(message: string): (m: string)
    ensures m != ""
    ensures message != "" ==> m == message
    ensures message == "" ==> m == SaveFailedMessage
  {
    if message != "" then message else SaveFailedMessage
  }

  /** The form fields the effect loads: the entry being edited, or a blank
      entry dated today. `isoDay` stands for the `toISOString` date part. */
  datatype Fields = Fields(title: string, date: string, imageUrl: string, content: string)

  function FieldsFor(entryToEdit: Option<JournalEntry>, today: string, isoDay: string -> string): (f: Fields)
    ensures entryToEdit.None? ==> f == Fields("", today, "", "")
    ensures entryToEdit.Some? ==> f.title == entryToEdit.value.title && f.content == entryToEdit.value.content
    ensures entryToEdit.Some? ==> f.imageUrl == entryToEdit.value.imageUrl.GetOr("")
    ensures entryToEdit.Some? && entryToEdit.value.date == "" ==> f.date == ""
  {
    match entryToEdit
    case None => Fields("", today, "", "")
    case Some(e) => Fields(e.title, if e.date != "" then isoDay(e.date) else "", e.imageUrl.GetOr(""), e.content)
  }

  /** Saving the loaded fields of an entry unchanged keeps its id, title,
      content and snippet. */
  lemma ReloadAndSaveKeepsIdentity(e: JournalEntry, today: string, isoDay: string -> string)
    ensures var f := FieldsFor(Some(e), today, isoDay);
      var d := BuildEntry(Some(e), f.title, f.date, f.imageUrl, f.content);
      d.entry.id == e.id && d.entry.title == e.title && d.entry.content == e.content && d.entry.snippet == e.snippet
  {
  }

  class JournalFormModal {
    var title: string
    var date: string
    var imageUrl: string
    var content: string
    var isSubmitting: bool
    var error: Option<string>
    /** How many times `onClose` was called. */
    var closeCalls: nat

    constructor()
      ensures title == "" && date == "" && imageUrl == "" && content == ""
      ensures !isSubmitting && error == None && closeCalls == 0
    {
      title, date, imageUrl, content := "", "", "", "";
      isSubmitting, error, closeCalls := false, None, 0;
    }

    /** The effect run when the modal opens or the entry changes. */
    method Populate(entryToEdit: Option<JournalEntry>, today: string, isoDay: string -> string)
      modifies this
      ensures Fields(title, date, imageUrl, content) == FieldsFor(entryToEdit, today, isoDay)
      ensures error == None
      ensures isSubmitting == old(isSubmitting) && closeCalls == old(closeCalls)
    {
      if entryToEdit.Some? {
        var e := entryToEdit.value;
        title := e.title;
        date := if e.date != "" then isoDay(e.date) else "";
        imageUrl := e.imageUrl.GetOr("");
        content := e.content;
      } else {
        title := "";
        date := today;
        imageUrl := "";
        content := "";
      }
      error := None;
    }

    /** `handleSubmit` up to the `await`: the data handed to `onSave`. */
    method BeginSubmit(entryToEdit: Option<JournalEntry>) returns (entryData: EntryData)
      modifies this
      ensures entryData == BuildEntry(entryToEdit, title, date, imageUrl, content)
      ensures isSubmitting && error == None
      ensures title == old(title) && date == old(date) && imageUrl == old(imageUrl) && content == old(content)
      ensures closeCalls == old(closeCalls)
    {
      isSubmitting := true;
      error := None;
      entryData := BuildEntry(entryToEdit, title, date, imageUrl, content);
    }

    /** `handleSubmit` after the `await`: close on success, show the error on
        failure, and stop submitting either way. */
    method CompleteSubmit(outcome: Result<()>)
      modifies this
      ensures !isSubmitting
      ensures outcome.Ok? ==> closeCalls == old(closeCalls) + 1 && error == old(error)
      ensures outcome.Err? ==> closeCalls == old(closeCalls) && error == Some(SaveError(outcome.error))
      ensures title == old(title) && date == old(date) && imageUrl == old(imageUrl) && content == old(content)
    {
      match outcome {
        case Ok(_) =>
          closeCalls := closeCalls + 1;
        case Err(m) =>
          error := Some(SaveError(m));
      }
      isSubmitting := false;
    }

    /** The modal's `onClose`: ignored while submitting. */
    method RequestClose()
      modifies this
      ensures closeCalls == if old(isSubmitting) then old(closeCalls) else old(closeCalls) + 1
      ensures isSubmitting == old(isSubmitting) && error == old(error)
      ensures title == old(title) && date == old(date) && imageUrl == old(imageUrl) && content == old(content)
    {
      if !isSubmitting {
        closeCalls := closeCalls + 1;
      }
    }
  }
}
