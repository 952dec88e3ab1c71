/** The browser's key/value store (`localStorage`) as an immutable map, and
    the values the client writes into it. */
module Storage {
  import opened Wrappers

  /** The user record the backend returns (src/types/article.ts). */
  datatype User = User(id: string, name: string, email: string)

  /** A stored value. The store only holds text; the one structured value the
      client writes is `JSON.stringify(user)`, modelled as `UserJson(user)` so
      that parsing it back yields the same record. */
  datatype Value = Text(text: string) | UserJson(user: User)

  type Store = map<string, Value>

  const TokenKey: string := "token"
  const AuthUserKey: string := "authUser"

  /** `!!value` of a stored value: the JSON text of a record is never
      empty, so only an empty plain string is falsy. */
  predicate IsTruthy(v: Value) {
    v.UserJson? || Truthy(Some(v.text))
  }

  function GetItem(s: Store, key: string): (r: Option<Value>)
    ensures r.Some? <==> key in s
    ensures r.Some? ==> r.value == s[key]
  {
    if key in s then Some(s[key]) else None
  }

  function SetItem(s: Store, key: string, v: Value): (r: Store)
    ensures r.Keys == s.Keys + {key}
    ensures r[key] == v
    ensures forall k :: k in s && k != key ==> r[k] == s[k]
  {
    s[key := v]
  }

  function RemoveItem(s: Store, key: string): (r: Store)
    ensures r.Keys == s.Keys - {key}
    ensures forall k :: k in r ==> r[k] == s[k]
  {
    s - {key}
  }

  function Clear(s: Store): (r: Store)
    ensures forall k :: k !in r
  {
    map[]
  }
}
