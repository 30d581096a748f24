/** The browser's `localStorage` as the application uses it: a string-to-string
    map that screens write and read in place. The session is the five keys
    below; being logged in means only that `auth_token` is present. */
module Session {
  import opened Common

  const AuthToken := "auth_token"
  const UserId := "user_id"
  const UserName := "user_name"
  const UserRole := "user_role"
  const UserEmail := "user_email"

  /** A session exists exactly when the token key is present, whatever its
      value and whatever else is (or is not) stored. */
  predicate LoggedIn(m: map<string, string>)
    ensures LoggedIn(m) <==> Get(m, AuthToken).Some?
  {
    AuthToken in m
  }

  /** `localStorage.getItem(key)`: `null` when absent. */
  function Get(m: map<string, string>, key: string): (r: Option<string>)
    ensures r.Some? <==> key in m
    ensures r.Some? ==> r.value == m[key]
  {
    if key in m then Some(m[key]) else None
  }

  /** What `setItem` stores for a value the backend may have left out: the
      value itself, or the text "undefined". */
  function StoredText(v: Option<string>): (r: string)
    ensures v.Some? ==> r == v.value
    ensures v.None? ==> r == "undefined"
  {
    if v.Some? then v.value else "undefined"
  }

  /** The storage after only the token has been written, as when a reply
      without a `user` throws right after the first `setItem`. */
  function TokenWritten(m: map<string, string>, token: Option<string>): (r: map<string, string>)
    ensures LoggedIn(r)
    ensures r.Keys == m.Keys + {AuthToken}
    ensures r[AuthToken] == StoredText(token)
    ensures forall k :: k in m && k != AuthToken ==> r[k] == m[k]
  {
    m[AuthToken := StoredText(token)]
  }

  /** The storage area shared by all screens of one browser tab. */
  class LocalStorage {
    var items: map<string, string>

    constructor (initial: map<string, string>)
      ensures items == initial
    {
      items := initial;
    }

    /** `localStorage.getItem(key)`. */
    function GetItem(key: string): (r: Option<string>)
      reads this
      ensures r.Some? <==> key in items
      ensures r.Some? ==> r.value == items[key]
    {
      Get(items, key)
    }

    /** `localStorage.setItem(key, value)`: one key written, the rest kept. */
    method SetItem(key: string, value: string)
      modifies this
      ensures items == old(items)[key := value]
    {
      items := items[key := value];
    }

    /** `localStorage.removeItem(key)`: removing an absent key is a no-op. */
    method RemoveItem(key: string)
      modifies this
      ensures items == old(items) - {key}
    {
      items := items - {key};
    }
  }
}
