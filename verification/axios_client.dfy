/** The shared HTTP client's response interceptor (src/lib/axios.ts). The
    transport itself is abstract: a call either resolves with the response
    body or rejects, with or without an HTTP response attached. */
module AxiosClient {
  import opened Wrappers
  import opened Storage
  import opened BrowserTab
  import Routes

  /** The parts of a failed HTTP response the client reads: the status and
      the backend's `data.message`, if any. */
  datatype ErrorResponse = ErrorResponse(status: int, message: Option<string>)

  /** What the transport produced for one request. `Rejected(None)` is a
      failure without a response (network error, timeout). */
  datatype Outcome<+T> = Resolved(data: T) | Rejected(response: Option<ErrorResponse>)

  const Unauthorized: int := 401
  const SessionExpiredMessage: string := "Session expired. Please log in again."

  predicate IsUnauthorized<T>(o: Outcome<T>) {
    o.Rejected? && o.response.Some? && o.response.value.status == Unauthorized
  }

  /** The interceptor: successes pass through; every failure is rejected
      again with the original error, after a 401 seen in a browser has
      removed the token, told the user and reloaded the page at "/". */
  function Intercept<T>(b: Browser, o: Outcome<T>): (r: (Browser, Outcome<T>))
    ensures r.1 == o
    ensures !(IsUnauthorized(o) && b.hasWindow) ==> r.0 == b
    ensures IsUnauthorized(o) && b.hasWindow ==>
      && r.0.store == RemoveItem(b.store, TokenKey)
      && r.0.route == Routes.PublicLanding
      && r.0.loads == b.loads + 1
      && r.0.notices == b.notices + [Notice(Bad, SessionExpiredMessage)]
      && r.0.hasWindow
  {
    match o
    case Resolved(_) => (b, o)
    case Rejected(resp) =>
      if resp.Some? && resp.value.status == Unauthorized && b.hasWindow then
        var b1 := b.(store := RemoveItem(b.store, TokenKey));
        var b2 := Notify(b1, Bad, SessionExpiredMessage);
        (HardNavigate(b2, Routes.PublicLanding), o)
      else
        (b, o)
  }

  /** A 401 removes only the token: the cached user record and every other
      key survive, and no token can be found afterwards. */
  lemma UnauthorizedKeepsOtherKeys<T>(b: Browser, o: Outcome<T>, key: string)
    requires IsUnauthorized(o) && b.hasWindow
    requires key != TokenKey && key in b.store
    ensures key in Intercept(b, o).0.store
    ensures Intercept(b, o).0.store[key] == b.store[key]
    ensures !CheckAuthToken(Intercept(b, o).0)
  {
  }
}
