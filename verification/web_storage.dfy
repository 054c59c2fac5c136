/** The browser's `localStorage`: a string-to-string dictionary shared by
    every part of the front-end, and the three keys the session uses. */
module WebStorage {
  import opened Outcomes

  const TokenKey := "token"
  const UserIdKey := "userId"
  const IsLoggedInKey := "isLoggedIn"

  /** `localStorage.getItem(key)`: the stored string, or `null` when absent. */
  function GetItem(items: map<string, string>, key: string): (r: Option<string>)
    ensures r.Some? <==> key in items
    ensures r.Some? ==> r.value == items[key]
  {
    if key in items then Some(items[key]) else None
  }

  /** JavaScript truthiness of a `string | null`: `!!value`. */
  predicate Truthy(value: Option<string>)
  {
    value.Some? && value.value != ""
  }

  /** Whether a non-empty string is stored under `key`. */
  predicate HasValue(items: map<string, string>, key: string)
  {
    Truthy(GetItem(items, key))
  }

  /** Storage after both session keys are removed. */
  function WithoutSession(items: map<string, string>): (r: map<string, string>)
    ensures TokenKey !in r && UserIdKey !in r
    ensures forall k :: k in r <==> k in items && k != TokenKey && k != UserIdKey
    ensures forall k :: k in r ==> r[k] == items[k]
  {
    items - {TokenKey, UserIdKey}
  }

  lemma WithoutSessionIdempotent(items: map<string, string>)
    ensures WithoutSession(WithoutSession(items)) == WithoutSession(items)
  {
  }

  /** The storage object itself; every client holds a reference to the same one. */
  class LocalStorage {
    var items: map<string, string>

    constructor (initial: map<string, string>)
      ensures items == initial
    {
      items := initial;
    }

    method SetItem(key: string, value: string)
      modifies this
      ensures items == old(items)[key := value]
    {
      items := items[key := value];
    }

    method RemoveItem(key: string)
      modifies this
      ensures items == old(items) - {key}
    {
      items := items - {key};
    }
  }
}
