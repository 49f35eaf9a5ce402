/** The add/edit form shown in the modal: its fields start from the note
    being edited, submission validates title then content, and routes to the
    edit or the add request by the form type. */
module AddEditNotesForm {
  import opened Notes
  import opened Storage

  const TITLE_REQUIRED := "Please enter the title"
  const CONTENT_REQUIRED := "Please enter the content"
  const NOT_AUTHORISED := "Not authorised"

  /** What a settled add or edit request emits: on success a toast, then
      the parent's reload, then the parent's close; on failure a toast only. */
  function SettledEffects(outcome: Outcome<string>): seq<Effect>
  {
    match outcome
    case Ok(message) => [Toast(Success, message), CallReload, CallClose]
    case ServiceFail(message) => [Toast(Error, message)]
    case Thrown(message) => [Toast(Error, message)]
  }

  /** The error line after a settled request: the failure's message, or the
      previous error on success. */
  function SettledError(current: Option<string>, outcome: Outcome<string>): Option<string>
  {
    if outcome.Ok? then current else Some(outcome.message)
  }

  /** Reload and close are called exactly on success, reload first; a
      failure shows its message verbatim. */
  lemma SettledContract(outcome: Outcome<string>, current: Option<string>)
    ensures CallReload in SettledEffects(outcome) <==> outcome.Ok?
    ensures CallClose in SettledEffects(outcome) <==> outcome.Ok?
    ensures outcome.Ok? ==> SettledEffects(outcome)[1] == CallReload && SettledEffects(outcome)[2] == CallClose
    ensures !outcome.Ok? ==>
      SettledError(current, outcome) == Some(outcome.message)
      && SettledEffects(outcome) == [Toast(Error, outcome.message)]
  {
  }

  class AddEditNotes {
    const noteData: Option<Note>
    const mode: string
    var title: string
    var content: string
    var tags: seq<string>
    var error: Option<string>
    var effects: seq<Effect>

    /** The form opens on the edited note's title, content and tags, or
        empty when there is no note; no error is shown. */
    constructor (noteData: Option<Note>, mode: string)
      ensures this.noteData == noteData && this.mode == mode
      ensures title == (if noteData.Some? then noteData.value.title else "")
      ensures content == (if noteData.Some? then noteData.value.content else "")
      ensures tags == (if noteData.Some? then noteData.value.tags else [])
      ensures error == None && effects == []
    {
      this.noteData := noteData;
      this.mode := mode;
      title := if noteData.Some? && noteData.value.title != "" then noteData.value.title else "";
      content := if noteData.Some? && noteData.value.content != "" then noteData.value.content else "";
      tags := if noteData.Some? then noteData.value.tags else [];
      error := None;
      effects := [];
    }

    method SetTitle(value: string)
      modifies this`title
      ensures title == value
    {
      title := value;
    }

    method SetContent(value: string)
      modifies this`content
      ensures content == value
    {
      content := value;
    }

    method SetTags(value: seq<string>)
      modifies this`tags
      ensures tags == value
    {
      tags := value;
    }

    /** `editNote`: without a note to edit it fails before sending (and
        changes nothing); without a signed-in user it redirects; otherwise it
        sends the edit of the current fields and settles. */
    method EditNote(store: LocalStorage, outcome: Outcome<string>)
      modifies this`error, this`effects
      ensures noteData.None? ==> error == old(error) && effects == old(effects)
      ensures noteData.Some? && SignedInUser(store.items).None? ==>
        error == old(error) && effects == old(effects) + [Toast(Error, NOT_AUTHORISED), Navigate(LOGIN_PATH)]
      ensures noteData.Some? && SignedInUser(store.items).Some? ==>
        error == SettledError(old(error), outcome)
        && effects == old(effects)
                      + [Send(EditById(noteData.value.id, title, content, tags, SignedInUser(store.items).value))]
                      + SettledEffects(outcome)
    {
      if noteData.None? {
        return;
      }
      var noteId := noteData.value.id;
      var user := SignedInUser(store.items);
      if user.None? {
        effects := effects + [Toast(Error, NOT_AUTHORISED), Navigate(LOGIN_PATH)];
        return;
      }
      effects := effects + [Send(EditById(noteId, title, content, tags, user.value))];
      Settle(outcome);
    }

    /** `addNewNote`: without a signed-in user it redirects; otherwise it
        sends the current fields as a new note and settles. */
    method AddNewNote(store: LocalStorage, outcome: Outcome<string>)
      modifies this`error, this`effects
      ensures SignedInUser(store.items).None? ==>
        error == old(error) && effects == old(effects) + [Toast(Error, NOT_AUTHORISED), Navigate(LOGIN_PATH)]
      ensures SignedInUser(store.items).Some? ==>
        error == SettledError(old(error), outcome)
        && effects == old(effects) + [Send(AddNew(title, content, tags, SignedInUser(store.items).value))]
                      + SettledEffects(outcome)
    {
      var user := SignedInUser(store.items);
      if user.None? {
        effects := effects + [Toast(Error, NOT_AUTHORISED), Navigate(LOGIN_PATH)];
        return;
      }
      effects := effects + [Send(AddNew(title, content, tags, user.value))];
      Settle(outcome);
    }

    /** The response handling shared by `editNote` and `addNewNote`. */
    method Settle(outcome: Outcome<string>)
      modifies this`error, this`effects
      ensures error == SettledError(old(error), outcome)
      ensures effects == old(effects) + SettledEffects(outcome)
    {
      match outcome {
        case Ok(message) =>
          effects := effects + [Toast(Success, message), CallReload, CallClose];
        case ServiceFail(message) =>
          error := Some(message);
          effects := effects + [Toast(Error, message)];
        case Thrown(message) =>
          effects := effects + [Toast(Error, message)];
          error := Some(message);
      }
    }

    /** `handleAddNote`: an empty title, then an empty content, is reported
        without any request; otherwise the error is cleared and the form is
        sent as an edit when its type is "edit" and as an add otherwise. */
    method HandleAddNote(store: LocalStorage, outcome: Outcome<string>)
      modifies this`error, this`effects
      ensures title == "" ==> error == Some(TITLE_REQUIRED) && effects == old(effects)
      ensures title != "" && content == "" ==> error == Some(CONTENT_REQUIRED) && effects == old(effects)
      ensures title != "" && content != "" && mode == "edit" && noteData.None? ==>
        error == Some("") && effects == old(effects)
      ensures title != "" && content != "" && (mode != "edit" || noteData.Some?) && SignedInUser(store.items).None? ==>
        error == Some("") && effects == old(effects) + [Toast(Error, NOT_AUTHORISED), Navigate(LOGIN_PATH)]
      ensures title != "" && content != "" && mode == "edit" && noteData.Some? && SignedInUser(store.items).Some? ==>
        error == SettledError(Some(""), outcome)
        && effects == old(effects)
                      + [Send(EditById(noteData.value.id, title, content, tags, SignedInUser(store.items).value))]
                      + SettledEffects(outcome)
      ensures title != "" && content != "" && mode != "edit" && SignedInUser(store.items).Some? ==>
        error == SettledError(Some(""), outcome)
        && effects == old(effects) + [Send(AddNew(title, content, tags, SignedInUser(store.items).value))]
                      + SettledEffects(outcome)
    {
      if title == "" {
        error := Some(TITLE_REQUIRED);
        return;
      }
      if content == "" {
        error := Some(CONTENT_REQUIRED);
        return;
      }
      error := Some("");
      if mode == "edit" {
        EditNote(store, outcome);
      } else {
        AddNewNote(store, outcome);
      }
    }
  }
}
