/** The browser's `localStorage`, shared by the session, cart and wishlist
    synchronisers and by the API layer. */
module LocalStorage {
  import opened Common

  /** Key under which the session token is stored. */
  const TOKEN_KEY := "userToken"
  /** Key under which the serialised profile is stored. */
  const USER_KEY := "userData"

  /** `localStorage.getItem(key)` over a snapshot of the entries. */
  function Lookup(entries: map<string, string>, key: string): (r: Option<string>)
    ensures r.Some? <==> key in entries
    ensures r.Some? ==> r.value == entries[key]
  {
    if key in entries then Some(entries[key]) else None
  }

  /** `!!localStorage.getItem('userToken')`: a token is stored and it is not empty. */
  predicate IsAuthenticated(entries: map<string, string>) {
    Truthy(Lookup(entries, TOKEN_KEY))
  }

  class Storage {
    var entries: map<string, string>

    constructor (initial: map<string, string>)
      ensures entries == initial
    {
      entries := initial;
    }

    function GetItem(key: string): (r: Option<string>)
      reads this
      ensures r == Lookup(entries, key)
    {
      Lookup(entries, key)
    }

    method SetItem(key: string, value: string)
      modifies this
      ensures entries == old(entries)[key := value]
    {
      entries := entries[key := value];
    }

    method RemoveItem(key: string)
      modifies this
      ensures entries == old(entries) - {key}
    {
      entries := entries - {key};
    }
  }
}
