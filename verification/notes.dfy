/** Shared vocabulary of the notes client: the note record, the outcome of a
    call to the note service, the requests the client sends, and the effects
    it emits to its collaborators (toasts, navigation, callbacks). */
module Notes {

  datatype Option<+T> = None | Some(value: T)

  /** A note as the note service returns it. `createdAt` is only displayed. */
  datatype Note = Note(
    id: string,
    title: string,
    content: string,
    tags: seq<string>,
    isPinned: bool,
    createdAt: string)

  /** How a call to the note service settles: a response whose `success`
      is not `false` (with its payload), a response with `success === false`
      (with its `message`), or a thrown error (with `error.message`). */
  datatype Outcome<+T> = Ok(data: T) | ServiceFail(message: string) | Thrown(message: string)

  /** A request sent to the note service. */
  datatype Request =
    | FetchAll(user: string)
    | DeleteById(noteId: string)
    | SetPinned(noteId: string, isPinned: bool)
    | EditById(noteId: string, title: string, content: string, tags: seq<string>, user: string)
    | AddNew(title: string, content: string, tags: seq<string>, user: string)

  datatype Severity = Success | Error

  /** Something a component hands to a collaborator: a toast, a route change,
      a request, or a call of a callback it received from its parent. */
  datatype Effect =
    | Toast(severity: Severity, message: string)
    | Navigate(path: string)
    | Send(request: Request)
    | CallReload
    | CallClose
    | CallSearch(query: string)
    | CallClearSearch

  const LOGIN_PATH := "/login"

  /** Number of list requests in an effect log: how many reloads reached the service. */
  function ListRequests(effects: seq<Effect>): nat
  {
    if effects == [] then 0
    else (if effects[0].Send? && effects[0].request.FetchAll? then 1 else 0) + ListRequests(effects[1..])
  }

  lemma {:induction false} ListRequestsAppend(a: seq<Effect>, b: seq<Effect>)
    ensures ListRequests(a + b) == ListRequests(a) + ListRequests(b)
  {
    if a == [] {
      assert a + b == b;
    } else {
      assert (a + b)[1..] == a[1..] + b;
      ListRequestsAppend(a[1..], b);
    }
  }

  /** A log that sends nothing holds no list request. */
  lemma {:induction false} ListRequestsNoSend(effects: seq<Effect>)
    requires forall i :: 0 <= i < |effects| ==> !effects[i].Send?
    ensures ListRequests(effects) == 0
    decreases |effects|
  {
    if effects != [] {
      ListRequestsNoSend(effects[1..]);
    }
  }
}
