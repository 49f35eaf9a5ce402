# Notes client: collection, search and edit-session model

A Dafny model of the client side of a personal notes app. The model covers:

- the home page, which owns the note collection, the search state, the displayed (filtered) view and the add/edit modal;
- the add/edit form, which validates a note and sends it as an edit or an add;
- the navigation bar's search box, its clear button and logout;
- the two values a note card derives from its note: the content preview and the tag line.

Every call to the note service is an input `Outcome`: `Ok(data)`, `ServiceFail(message)` for a response with `success === false`, or `Thrown(message)` for a thrown error. Each handler is one atomic step over the outcome it is given. Toasts, route changes, the requests sent, and the calls a child makes to its parent's callbacks are appended, in order, to an `effects` log. `localStorage` is a `LocalStorage` object holding a `map<string, string>`.

Modules:

- `Notes`: the note record, outcomes, requests and effects.
- `Storage`: the storage class and the signed-in check. `!user_mail` is a truthiness test, so a stored empty string counts as no user.
- `Text`: ASCII `toLowerCase`, ECMAScript `trim` and `includes`.
- `NoteSearch`: the filter.
- `HomePage`: class `Home`.
- `AddEditNotesForm`: class `AddEditNotes`.
- `NavbarComponent`: class `Navbar`.
- `NoteCardView`: preview, tag line and pin colour.

`Home.Valid()` holds after every handler. It says that `filteredNotes` is always the filter of `allNotes` under the current search state, which is what the filter effect re-establishes after each render. It also says that a closed modal is always the reset one, and that an "edit" modal always carries a note.

Points where the code's behaviour is easy to misread:

- A reload whose response says `success: false` is only logged. It shows no error toast.
- The blank-query check trims the query, but the filter itself uses the untrimmed, lowered query.
- The navbar shows the profile when the stored user is truthy, not merely present, so an empty stored user hides it.
- The mount effect checks the Redux current user. The reload checks the stored user. These are two separate gates.

## Model

| member | source | states |
|---|---|---|
| Text.LowerIdempotent | src/pages/Home/Home.jsx:133-134 | lowering a query already lowered by `onSearchNote` changes nothing, and keeps its length |
| Text.TrimEmptyIffBlank | src/pages/Home/Home.jsx:75 | `query.trim() === ""` exactly when every character of the query is ECMAScript whitespace |
| Text.LowerKeepsBlank | src/pages/Home/Home.jsx:75 | a query is blank after trimming exactly when its lowered form is |
| Text.ContainsIffOccurs | src/pages/Home/Home.jsx:81-82 | `includes` holds exactly when the query occurs at some index of the text |
| NoteSearch.SelectMatchingCount | src/pages/Home/Home.jsx:79-83 | the filter keeps every matching note as often as it occurs and drops every other note |
| NoteSearch.SelectMatchingMember | src/pages/Home/Home.jsx:79-83 | a note is in the filtered list iff it is in the collection and its lowered title or content contains the query (soundness and completeness) |
| NoteSearch.SelectMatchingSubsequence | src/pages/Home/Home.jsx:79-84 | the filtered list is a subsequence of the collection, so order is preserved |
| NoteSearch.SelectMatchingAppend | src/pages/Home/Home.jsx:79-83 | filtering a concatenation is the concatenation of the filtered parts |
| NoteSearch.FilteredViewSpec | src/pages/Home/Home.jsx:74-86 | no active search or a blank query shows the whole collection in order; otherwise exactly the notes whose lowered title or content contains the lowered untrimmed query; always a subsequence |
| NoteSearch.SearchViewIgnoresLowering | src/pages/Home/Home.jsx:133-136 | storing the lowered query gives the same view as filtering on the query as typed |
| NoteSearch.GroceriesScenario | src/pages/Home/Home.jsx:74-86 | with "Groceries"/"milk, eggs" and "Work"/"finish report", searching "milk" shows only the first note; with no search both are shown |
| HomePage.ReloadContract | src/pages/Home/Home.jsx:37-63 | a reload sends exactly one list request when a user is signed in and none otherwise; without a user it redirects to /login; the collection changes only on a successful response |
| HomePage.ReloadAfterLogout | src/pages/Home/Home.jsx:38-44 | once the user and token keys are removed, a reload only shows the authorisation toast and redirects, and keeps the collection |
| HomePage.CountListRequests | src/pages/Home/Home.jsx:99-108 | after a delete or pin, the list requests grow by one exactly on success with a signed-in user, by zero on any failure |
| HomePage.Home.constructor | src/pages/Home/Home.jsx:24-35 | empty collection and view, no search, empty query, closed "add" modal |
| HomePage.Home.RefreshFilter | src/pages/Home/Home.jsx:74-86 | the filter effect stores the filtered view of the collection |
| HomePage.Home.GetAllNotes | src/pages/Home/Home.jsx:37-63 | the collection is replaced wholesale by the returned list on success and kept on missing user, `success:false` or a throw; emits the reload effects; search state and modal untouched; the view follows the collection |
| HomePage.Home.Mount | src/pages/Home/Home.jsx:65-72 | no current user: redirect only; otherwise one reload |
| HomePage.Home.HandleEdit | src/pages/Home/Home.jsx:88-90 | the modal becomes `{isShown: true, type: "edit", data: note}`; nothing else changes |
| HomePage.Home.OpenAdd | src/pages/Home/Home.jsx:190-192 | the modal becomes `{isShown: true, type: "add", data: null}`; nothing else changes |
| HomePage.Home.CloseModal | src/pages/Home/Home.jsx:199-201 | the modal becomes `{isShown: false, type: "add", data: null}`; nothing else changes |
| HomePage.Home.DeleteNote | src/pages/Home/Home.jsx:92-109 | sends a delete for the note's id; on success a success toast and exactly one reload; on `success:false` or a throw an error toast with the message, no reload, collection unchanged |
| HomePage.Home.UpdateIsPinned | src/pages/Home/Home.jsx:111-131 | sends the negation of the note's `isPinned`; on success a toast and exactly one reload; on `success:false` the server message, on a throw "Failed to update pin status: " plus the message, and no reload |
| HomePage.Home.OnSearchNote | src/pages/Home/Home.jsx:133-136 | the query becomes the lowered input and the search becomes active; the collection, modal and effects are untouched; the view is the filter on the input |
| HomePage.Home.HandleClearSearch | src/pages/Home/Home.jsx:138-142 | the search is inactive, the query is "" and the view is the whole collection; on an already-cleared state nothing changes, so clearing twice equals clearing once |
| AddEditNotesForm.SettledContract | src/pages/Home/AddEditNotes.jsx:38-52 | reload and close are called exactly on success, reload before close; a failure's message becomes the error verbatim with only an error toast |
| AddEditNotesForm.AddEditNotes.constructor | src/pages/Home/AddEditNotes.jsx:11-14 | title, content and tags start from the edited note, or "", "" and [] without one; no error |
| AddEditNotesForm.AddEditNotes.SetTitle | src/pages/Home/AddEditNotes.jsx:125 | typing replaces the title |
| AddEditNotesForm.AddEditNotes.SetContent | src/pages/Home/AddEditNotes.jsx:137 | typing replaces the content |
| AddEditNotesForm.AddEditNotes.SetTags | src/pages/Home/AddEditNotes.jsx:144 | the tag editor replaces the tags |
| AddEditNotesForm.AddEditNotes.Settle | src/pages/Home/AddEditNotes.jsx:38-52 | the response handling shared by edit and add: on success toast, reload, close; on `success:false` or a throw the message becomes the error and the form stays open |
| AddEditNotesForm.AddEditNotes.EditNote | src/pages/Home/AddEditNotes.jsx:19-53 | without a stored user: toast and redirect, nothing sent; otherwise an edit request for `noteData._id` with the current title, content, tags and user, then settle |
| AddEditNotesForm.AddEditNotes.AddNewNote | src/pages/Home/AddEditNotes.jsx:56-86 | without a stored user: toast and redirect, nothing sent; otherwise an add request with the current fields and user, then settle |
| AddEditNotesForm.AddEditNotes.HandleAddNote | src/pages/Home/AddEditNotes.jsx:88-106 | empty title gives "Please enter the title" before content is looked at; otherwise an empty content gives "Please enter the content"; neither sends anything; otherwise the error is cleared and type "edit" sends an edit, any other type an add |
| NavbarComponent.ShowsProfile | src/components/Navbar.jsx:78-82 | the profile is shown exactly when the stored "user" is present and not the empty string |
| Storage.SignedInUser | src/pages/Home/Home.jsx:38-39 | the `!user_mail` gate shared by the reload, edit and add handlers: a user is admitted exactly when the stored "user" is present and not "", and the admitted identity is that stored value |
| NavbarComponent.Navbar.constructor | src/components/Navbar.jsx:18 | the local query starts empty |
| NavbarComponent.Navbar.OnChange | src/components/Navbar.jsx:60 | typing only replaces the local query; no search is triggered |
| NavbarComponent.Navbar.HandleSearch | src/components/Navbar.jsx:24-28 | an empty query does nothing; a non-empty one is forwarded unchanged to `onSearchNote` once |
| NavbarComponent.Navbar.OnClearSearch | src/components/Navbar.jsx:30-33 | the local query becomes "" and `handleClearSearch` is called exactly once |
| NavbarComponent.Navbar.OnLogout | src/components/Navbar.jsx:35-46 | removes the "token" and "user" keys, keeps every other key and value, hides the profile, navigates to /login |
| Storage.LocalStorage.RemoveItem | src/components/Navbar.jsx:38-39 | removing a key drops it and leaves every other key |
| NoteCardView.Preview | src/components/Cards/NoteCard.jsx:40 | the preview is a prefix of the content of length at most 60; the whole content when it has at most 60 characters, exactly 60 otherwise; none without content |
| NoteCardView.TagLabelAppend | src/components/Cards/NoteCard.jsx:44 | the tag line of a concatenation is the concatenation of the tag lines |
| NoteCardView.TagLabelAt | src/components/Cards/NoteCard.jsx:44 | `"#" + tag + " "` for tag i sits right after the text of the tags before it; no tags give "" |
| NoteCardView.PinColour | src/components/Cards/NoteCard.jsx:33-35 | the pin icon gets the highlight colour exactly when the note is pinned |

## Left out

- The HTTP calls, their URLs and the JSON envelope. Each call is an `Outcome` input. A successful list response is assumed to carry a list.
- Asynchrony. Each handler is one atomic step, so overlapping reloads, double submission and the missing in-flight guards are not modelled.
- React hook scheduling, Redux selectors and `dispatch` (including the sign-out actions in logout), toast rendering and `console.log`. Navigation and toasts appear only as entries in the effects log.
- The logout `catch` branch. Removing a storage key cannot fail in the model.
- `userInfo`: it is only passed on to the profile view.
- Everything presentational: theme, styles, icons, the empty-state card and its messages, the modal shell, the date shown on a card, and the `TagInput`, `SearchBar` and `ProfileInfo` components.
- The wiring of the form's callbacks. `AddEditNotes` logs `CallReload` and `CallClose`; what they run in the parent is `Home.GetAllNotes` and `Home.CloseModal`.
- Text.Lower: lowers only the ASCII letters A-Z, not full Unicode case mapping.
- NoteCardView.Preview: counts Unicode characters, whereas JavaScript's `slice` counts UTF-16 code units; the two differ only for characters outside the Basic Multilingual Plane.
- AddEditNotesForm.AddEditNotes.EditNote: with no note to edit, reading its id throws before the request. This rejects the async call, which the model shows as no change. The home page never opens an edit form without a note (`Home.Valid()`).
