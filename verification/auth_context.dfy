/** The shared authentication context (src/context/authContext.tsx). */
module AuthContext {
  import opened Wrappers
  import opened Storage
  import opened BrowserTab

  /** The provider's value: the flag (its setter is `SetIsAuthenticated`). */
  datatype Context = Context(isAuthenticated: bool)

  /** The provider's state before its mount effect. */
  const Initial: Context := Context(false)

  const NoProviderMessage: string := "useAuth must be used within an AuthProvider"

  /** The one-time mount effect: the flag becomes token presence. */
  function ProviderMount(b: Browser, c: Context): (r: Context)
    ensures r.isAuthenticated
      <==> (b.hasWindow && TokenKey in b.store
            && !(b.store[TokenKey].Text? && b.store[TokenKey].text == ""))
  {
    Context(CheckAuthToken(b))
  }

  /** The exposed setter. */
  function SetIsAuthenticated(c: Context, v: bool): (r: Context)
    ensures r.isAuthenticated == v
  {
    c.(isAuthenticated := v)
  }

  /** `useAuth`: throws without a provider, otherwise hands out the
      provider's value unchanged. */
  function UseAuth(provided: Option<Context>): (r: Result<Context, string>)
    ensures r.Failure? <==> provided.None?
    ensures r.Failure? ==> r.error == NoProviderMessage
    ensures r.Success? ==> r.value == provided.value
  {
    match provided
    case None => Failure(NoProviderMessage)
    case Some(c) => Success(c)
  }
}
