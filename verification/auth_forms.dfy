/** What the sign-in and sign-up forms share: the backend's reply and how a
    successful reply is persisted. */
module AuthForms {
  import opened Wrappers
  import opened Storage
  import opened BrowserTab

  /** The reply body of both authentication endpoints. A missing `token` is
      `None`. */
  datatype AuthReply = AuthReply(user: User, token: Option<string>, message: Option<string>)

  /** `localStorage.setItem` stores `String(token)`; a missing token is
      therefore stored as the text "undefined". */
  function StoredToken(token: Option<string>): (v: Value)
    ensures v.Text?
    ensures IsTruthy(v) <==> token != Some("")
    ensures token.Some? ==> v == Text(token.value)
  {
    match token
    case Some(t) => Text(t)
    case None => Text("undefined")
  }

  /** Both `setItem` calls of a successful sign-in or sign-up. */
  function PersistSession(b: Browser, reply: AuthReply): (r: Browser)
    ensures r.store.Keys == b.store.Keys + {TokenKey, AuthUserKey}
    ensures r.store[AuthUserKey] == UserJson(reply.user)
    ensures r.store[TokenKey] == StoredToken(reply.token)
    ensures forall k :: k in b.store && k != TokenKey && k != AuthUserKey ==> r.store[k] == b.store[k]
    ensures r.route == b.route && r.notices == b.notices && r.loads == b.loads && r.hasWindow == b.hasWindow
  {
    var s1 := SetItem(b.store, TokenKey, StoredToken(reply.token));
    b.(store := SetItem(s1, AuthUserKey, UserJson(reply.user)))
  }
}
