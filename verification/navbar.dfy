/** The navigation bar: a local search box that forwards its query to the
    home page, a clear button, and logout. */
module NavbarComponent {
  import opened Notes
  import opened Storage

  /** The profile block is rendered exactly while `localStorage.getItem("user")`
      is truthy. */
  predicate ShowsProfile(items: map<string, string>): (shown: bool)
    ensures shown <==> USER_KEY in items && items[USER_KEY] != ""
  {
    SignedInUser(items).Some?
  }

  class Navbar {
    var searchQuery: string
    var effects: seq<Effect>

    constructor ()
      ensures searchQuery == "" && effects == []
    {
      searchQuery := "";
      effects := [];
    }

    /** Typing: replaces the local query and never searches. */
    method OnChange(value: string)
      modifies this`searchQuery
      ensures searchQuery == value
    {
      searchQuery := value;
    }

    /** `handleSearch`: forwards the query, unchanged, only when it is not empty. */
    method HandleSearch()
      modifies this`effects
      ensures searchQuery == "" ==> effects == old(effects)
      ensures searchQuery != "" ==> effects == old(effects) + [CallSearch(searchQuery)]
    {
      if searchQuery != "" {
        effects := effects + [CallSearch(searchQuery)];
      }
    }

    /** `onClearSearch`: empties the local query, then calls the parent's
        clear once. */
    method OnClearSearch()
      modifies this
      ensures searchQuery == ""
      ensures effects == old(effects) + [CallClearSearch]
    {
      searchQuery := "";
      effects := effects + [CallClearSearch];
    }

    /** `onLogout`: removes the token and the user from storage, keeps every
        other key, and goes to the login page; the profile is then hidden. */
    method OnLogout(store: LocalStorage)
      modifies store, this`effects
      ensures store.items == old(store.items) - {TOKEN_KEY, USER_KEY}
      ensures forall k :: k != TOKEN_KEY && k != USER_KEY ==>
        (k in store.items <==> k in old(store.items)) && (k in store.items ==> store.items[k] == old(store.items)[k])
      ensures !ShowsProfile(store.items)
      ensures effects == old(effects) + [Navigate(LOGIN_PATH)]
    {
      store.RemoveItem(TOKEN_KEY);
      store.RemoveItem(USER_KEY);
      effects := effects + [Navigate(LOGIN_PATH)];
    }
  }
}
