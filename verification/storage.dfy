/** The browser's `localStorage`, as far as the notes client uses it. */
module Storage {
  import opened Notes

  const USER_KEY := "user"
  const TOKEN_KEY := "token"

  /** A string-to-string store whose keys can be removed in place. */
  class LocalStorage {
    var items: map<string, string>

    constructor (items: map<string, string>)
      ensures this.items == items
    {
      this.items := items;
    }

    /** `removeItem`: drops one key; removing an absent key is a no-op. */
    method RemoveItem(key: string)
      modifies this
      ensures items == old(items) - {key}
      ensures key !in items
      ensures forall k :: k != key ==> (k in items <==> k in old(items))
    {
      items := items - {key};
    }
  }

  /** The identity the session gate admits: `localStorage.getItem("user")`
      when it is truthy, that is, present and not the empty string. */
  function SignedInUser(items: map<string, string>): (user: Option<string>)
    ensures user.Some? <==> USER_KEY in items && items[USER_KEY] != ""
    ensures user.Some? ==> user.value == items[USER_KEY] && user.value != ""
  {
    if USER_KEY in items && items[USER_KEY] != "" then Some(items[USER_KEY]) else None
  }
}
