/** The home page: owner of the note collection, the search state, the
    displayed view and the add/edit modal. Each handler is one atomic step
    on a given service outcome, including the filter effect that follows it. */
module HomePage {
  import opened Notes
  import opened Text
  import opened NoteSearch
  import opened Storage

  /** The add/edit modal: whether it is open, the form type ("add" or
      "edit") and the note being edited. */
  datatype ModalState = ModalState(isShown: bool, mode: string, data: Option<Note>)

  const CLOSED_MODAL := ModalState(false, "add", None)

  const AUTH_REQUIRED := "First, Authorise yourself!"
  const FETCH_FAILED := "Failed to fetch notes: "
  const PIN_FAILED := "Failed to update pin status: "

  /** The collection after `getAllNotes`: the returned list when a user is
      signed in and the service answered, otherwise the old collection. */
  function Reloaded(current: seq<Note>, items: map<string, string>, outcome: Outcome<seq<Note>>): seq<Note>
  {
    if SignedInUser(items).Some? && outcome.Ok? then outcome.data else current
  }

  /** What `getAllNotes` emits: a toast and a redirect when nobody is signed
      in; otherwise the list request and, when it throws, an error toast. */
  function ReloadEffects(items: map<string, string>, outcome: Outcome<seq<Note>>): seq<Effect>
  {
    match SignedInUser(items)
    case None => [Toast(Error, AUTH_REQUIRED), Navigate(LOGIN_PATH)]
    case Some(user) =>
      [Send(FetchAll(user))] + (if outcome.Thrown? then [Toast(Error, FETCH_FAILED + outcome.message)] else [])
  }

  /** A reload reaches the service exactly once when a user is signed in,
      never otherwise; it replaces the collection only on success. */
  lemma ReloadContract(current: seq<Note>, items: map<string, string>, outcome: Outcome<seq<Note>>)
    ensures ListRequests(ReloadEffects(items, outcome)) == if SignedInUser(items).Some? then 1 else 0
    ensures SignedInUser(items).None? ==> Navigate(LOGIN_PATH) in ReloadEffects(items, outcome)
    ensures Reloaded(current, items, outcome) != current ==> SignedInUser(items).Some? && outcome.Ok?
  {
    var effects := ReloadEffects(items, outcome);
    if SignedInUser(items).Some? {
      var tail := effects[1..];
      ListRequestsNoSend(tail);
      ListRequestsAppend([effects[0]], tail);
      assert [effects[0]] + tail == effects;
    } else {
      ListRequestsNoSend(effects);
    }
  }

  /** Once the user key is gone (as after logout), a reload sends nothing,
      redirects to the login page and keeps the collection. */
  lemma ReloadAfterLogout(current: seq<Note>, items: map<string, string>, outcome: Outcome<seq<Note>>)
    ensures ReloadEffects(items - {TOKEN_KEY, USER_KEY}, outcome) == [Toast(Error, AUTH_REQUIRED), Navigate(LOGIN_PATH)]
    ensures Reloaded(current, items - {TOKEN_KEY, USER_KEY}, outcome) == current
  {
    assert USER_KEY !in items - {TOKEN_KEY, USER_KEY};
  }

  class Home {
    var allNotes: seq<Note>
    var filteredNotes: seq<Note>
    var isSearch: bool
    var searchQuery: string
    var modal: ModalState
    var effects: seq<Effect>

    /** The displayed view is always the filter of the collection, and a
        closed modal is always the reset one; only edit carries a note. */
    ghost predicate Valid()
      reads this
    {
      && filteredNotes == FilteredView(allNotes, isSearch, searchQuery)
      && (modal.isShown || modal == CLOSED_MODAL)
      && (modal.mode == "edit" ==> modal.data.Some?)
    }

    constructor ()
      ensures Valid()
      ensures allNotes == [] && filteredNotes == [] && !isSearch && searchQuery == ""
      ensures modal == CLOSED_MODAL && effects == []
    {
      allNotes, filteredNotes := [], [];
      isSearch, searchQuery := false, "";
      modal := CLOSED_MODAL;
      effects := [];
    }

    /** The filter effect: recomputes the displayed view from the collection
        and the search state. */
    method RefreshFilter()
      modifies this`filteredNotes
      ensures filteredNotes == FilteredView(allNotes, isSearch, searchQuery)
    {
      filteredNotes := FilteredView(allNotes, isSearch, searchQuery);
    }

    /** `getAllNotes`: the only writer of the collection. */
    method GetAllNotes(store: LocalStorage, outcome: Outcome<seq<Note>>)
      requires Valid()
      modifies this
      ensures Valid()
      ensures allNotes == Reloaded(old(allNotes), store.items, outcome)
      ensures effects == old(effects) + ReloadEffects(store.items, outcome)
      ensures isSearch == old(isSearch) && searchQuery == old(searchQuery) && modal == old(modal)
    {
      var user := SignedInUser(store.items);
      if user.None? {
        effects := effects + [Toast(Error, AUTH_REQUIRED), Navigate(LOGIN_PATH)];
        return;
      }
      effects := effects + [Send(FetchAll(user.value))];
      match outcome
      case Ok(notes) =>
        allNotes := notes;
        RefreshFilter();
      case ServiceFail(_) =>
      case Thrown(message) =>
        effects := effects + [Toast(Error, FETCH_FAILED + message)];
    }

    /** The mount effect: redirect when there is no current user, otherwise
        the first reload. */
    method Mount(hasCurrentUser: bool, store: LocalStorage, outcome: Outcome<seq<Note>>)
      requires Valid()
      modifies this
      ensures Valid()
      ensures !hasCurrentUser ==> allNotes == old(allNotes) && effects == old(effects) + [Navigate(LOGIN_PATH)]
      ensures hasCurrentUser ==>
        allNotes == Reloaded(old(allNotes), store.items, outcome)
        && effects == old(effects) + ReloadEffects(store.items, outcome)
      ensures isSearch == old(isSearch) && searchQuery == old(searchQuery) && modal == old(modal)
    {
      if !hasCurrentUser {
        effects := effects + [Navigate(LOGIN_PATH)];
      } else {
        GetAllNotes(store, outcome);
      }
    }

    /** `handleEdit`: opens the modal on the given note. */
    method HandleEdit(note: Note)
      requires Valid()
      modifies this`modal
      ensures Valid()
      ensures modal == ModalState(true, "edit", Some(note))
    {
      modal := ModalState(true, "edit", Some(note));
    }

    /** The add button: opens an empty add form. */
    method OpenAdd()
      requires Valid()
      modifies this`modal
      ensures Valid()
      ensures modal == ModalState(true, "add", None)
    {
      modal := ModalState(true, "add", None);
    }

    /** `onRequestClose` and `onClose`: both reset the modal. */
    method CloseModal()
      requires Valid()
      modifies this`modal
      ensures Valid()
      ensures modal == CLOSED_MODAL && !modal.isShown
    {
      modal := CLOSED_MODAL;
    }

    /** `deleteNote`: one delete request; a reload follows only a success. */
    method DeleteNote(note: Note, store: LocalStorage, outcome: Outcome<string>, reloadOutcome: Outcome<seq<Note>>)
      requires Valid()
      modifies this
      ensures Valid()
      ensures outcome.Ok? ==>
        allNotes == Reloaded(old(allNotes), store.items, reloadOutcome)
        && effects == old(effects) + [Send(DeleteById(note.id)), Toast(Success, outcome.data)]
                      + ReloadEffects(store.items, reloadOutcome)
      ensures !outcome.Ok? ==>
        allNotes == old(allNotes)
        && effects == old(effects) + [Send(DeleteById(note.id)), Toast(Error, outcome.message)]
      ensures ListRequests(effects) == ListRequests(old(effects))
        + if outcome.Ok? && SignedInUser(store.items).Some? then 1 else 0
      ensures isSearch == old(isSearch) && searchQuery == old(searchQuery) && modal == old(modal)
    {
      effects := effects + [Send(DeleteById(note.id))];
      match outcome {
        case Ok(message) =>
          effects := effects + [Toast(Success, message)];
          GetAllNotes(store, reloadOutcome);
        case ServiceFail(message) =>
          effects := effects + [Toast(Error, message)];
        case Thrown(message) =>
          effects := effects + [Toast(Error, message)];
      }
      CountListRequests(old(effects), outcome, store.items, reloadOutcome, [Send(DeleteById(note.id))]);
    }

    /** `updateIsPinned`: asks for the negation of the note's pin flag; a
        reload follows only a success. */
    method UpdateIsPinned(note: Note, store: LocalStorage, outcome: Outcome<string>, reloadOutcome: Outcome<seq<Note>>)
      requires Valid()
      modifies this
      ensures Valid()
      ensures outcome.Ok? ==>
        allNotes == Reloaded(old(allNotes), store.items, reloadOutcome)
        && effects == old(effects) + [Send(SetPinned(note.id, !note.isPinned)), Toast(Success, outcome.data)]
                      + ReloadEffects(store.items, reloadOutcome)
      ensures outcome.ServiceFail? ==>
        allNotes == old(allNotes)
        && effects == old(effects) + [Send(SetPinned(note.id, !note.isPinned)), Toast(Error, outcome.message)]
      ensures outcome.Thrown? ==>
        allNotes == old(allNotes)
        && effects == old(effects) + [Send(SetPinned(note.id, !note.isPinned)), Toast(Error, PIN_FAILED + outcome.message)]
      ensures ListRequests(effects) == ListRequests(old(effects))
        + if outcome.Ok? && SignedInUser(store.items).Some? then 1 else 0
      ensures isSearch == old(isSearch) && searchQuery == old(searchQuery) && modal == old(modal)
    {
      effects := effects + [Send(SetPinned(note.id, !note.isPinned))];
      match outcome {
        case Ok(message) =>
          effects := effects + [Toast(Success, message)];
          GetAllNotes(store, reloadOutcome);
        case ServiceFail(message) =>
          effects := effects + [Toast(Error, message)];
        case Thrown(message) =>
          effects := effects + [Toast(Error, PIN_FAILED + message)];
      }
      CountListRequests(old(effects), outcome, store.items, reloadOutcome, [Send(SetPinned(note.id, !note.isPinned))]);
    }

    /** `onSearchNote`: stores the lowered query and activates the search. */
    method OnSearchNote(query: string)
      requires Valid()
      modifies this`searchQuery, this`isSearch, this`filteredNotes
      ensures Valid()
      ensures searchQuery == Lower(query) && isSearch
      ensures filteredNotes == FilteredView(allNotes, true, query)
    {
      searchQuery := Lower(query);
      isSearch := true;
      RefreshFilter();
      SearchViewIgnoresLowering(allNotes, query);
    }

    /** `handleClearSearch`: deactivates the search and shows the whole
        collection; on a cleared state it changes nothing, so applying it
        twice is applying it once. */
    method HandleClearSearch()
      requires Valid()
      modifies this`searchQuery, this`isSearch, this`filteredNotes
      ensures Valid()
      ensures !isSearch && searchQuery == "" && filteredNotes == allNotes
      ensures old(!isSearch && searchQuery == "") ==> filteredNotes == old(filteredNotes)
    {
      isSearch := false;
      searchQuery := "";
      filteredNotes := allNotes;
      RefreshFilter();
    }
  }

  /** The list-request count after a delete or pin handler: one more exactly
      when the handler succeeded and a user is signed in. */
  lemma CountListRequests(before: seq<Effect>, outcome: Outcome<string>, items: map<string, string>,
                          reloadOutcome: Outcome<seq<Note>>, sent: seq<Effect>)
    requires ListRequests(sent) == 0
    ensures outcome.Ok? ==>
      ListRequests(before + sent + [Toast(Success, outcome.data)] + ReloadEffects(items, reloadOutcome))
      == ListRequests(before) + if SignedInUser(items).Some? then 1 else 0
    ensures forall message :: ListRequests(before + sent + [Toast(Error, message)]) == ListRequests(before)
  {
    forall message ensures ListRequests(before + sent + [Toast(Error, message)]) == ListRequests(before) {
      ListRequestsAppend(before + sent, [Toast(Error, message)]);
      ListRequestsAppend(before, sent);
    }
    if outcome.Ok? {
      var toast := [Toast(Success, outcome.data)];
      ListRequestsAppend(before + sent + toast, ReloadEffects(items, reloadOutcome));
      ListRequestsAppend(before + sent, toast);
      ListRequestsAppend(before, sent);
      ReloadContract([], items, reloadOutcome);
    }
  }
}
