/** The generic request wrapper `apiMethod` (src/utils/apiMethods.ts): how a
    call is shaped into a request, and how its outcome is handed back. */
module ApiMethods {
  import opened Wrappers
  import opened BrowserTab
  import opened AxiosClient

  datatype Method = Get | Post | Put | Delete | Patch

  /** The request bodies the client sends; `EmptyObject` is the default `{}`. */
  datatype Payload =
    | EmptyObject
    | SignInBody(email: string, password: string)
    | SignUpBody(name: string, email: string, password: string, confirmPassword: string)
    | ArticleBody(title: string, content: string)

  /** The request handed to the transport. */
  datatype Request = Request(
    url: string,
    verb: Method,
    body: Option<Payload>,
    params: Option<Payload>,
    withCredentials: bool)

  /** One call: what was sent, the tab afterwards, and what the caller's
      `await` yields (`Failure` carries the thrown `Error`'s message). */
  datatype Exchange<+T> = Exchange(request: Request, browser: Browser, result: Result<T, string>)

  const GenericFailure: string := "Something went wrong"

  /** The `data` argument after its default `{}` is applied. */
  function DataOrDefault(data: Option<Payload>): (r: Payload)
    ensures data.None? ==> r == EmptyObject
    ensures data.Some? ==> r == data.value
  {
    match data
    case None => EmptyObject
    case Some(d) => d
  }

  /** The request `apiMethod` issues. `sendToken` (default false) is
      accepted and ignored. */
  function BuildRequest(url: string, verb: Method, data: Option<Payload>, sendToken: Option<bool>): (r: Request)
    ensures r.url == url && r.verb == verb && r.withCredentials
    ensures verb == Get ==> r.body == None && r.params == Some(DataOrDefault(data))
    ensures verb != Get ==> r.params == None && r.body == Some(DataOrDefault(data))
  {
    var d := DataOrDefault(data);
    Request(url, verb,
      if verb != Get then Some(d) else None,
      if verb == Get then Some(d) else None,
      true)
  }

  /** The message of the normalised error: the backend's message when it is
      a non-empty string, the generic one otherwise. Never empty. */
  function ErrorMessage(response: Option<ErrorResponse>): (m: string)
    ensures m != ""
    ensures response.Some? && Truthy(response.value.message) ==> m == response.value.message.value
    ensures !(response.Some? && Truthy(response.value.message)) ==> m == GenericFailure
  {
    match response
    case None => GenericFailure
    case Some(r) => OrElse(r.message, GenericFailure)
  }

  /** `apiMethod`: issue the request, pass the response body through on
      success, and turn every failure (after the interceptor has run) into
      one rejected, normalised error. */
  function ApiMethod<T>(b: Browser, url: string, verb: Method, data: Option<Payload>,
                        sendToken: Option<bool>, outcome: Outcome<T>): (x: Exchange<T>)
    ensures x.request.url == url && x.request.verb == verb && x.request.withCredentials
    ensures outcome.Resolved? ==> x.result == Success(outcome.data) && x.browser == b
    ensures outcome.Rejected? ==> x.result == Failure(ErrorMessage(outcome.response))
    ensures x.browser == Intercept(b, outcome).0
  {
    var req := BuildRequest(url, verb, data, sendToken);
    var (b', o) := Intercept(b, outcome);
    match o
    case Resolved(d) => Exchange(req, b', Success(d))
    case Rejected(resp) => Exchange(req, b', Failure(ErrorMessage(resp)))
  }

  /** The issued request is the same whatever `sendToken` says. */
  lemma SendTokenIgnored(url: string, verb: Method, data: Option<Payload>, s1: Option<bool>, s2: Option<bool>)
    ensures BuildRequest(url, verb, data, s1) == BuildRequest(url, verb, data, s2)
  {
  }

  /** Every failure reaches the caller, a 401 included, and its message is
      never empty; a non-401 failure leaves the tab untouched. */
  lemma FailuresAlwaysReachCaller<T>(b: Browser, url: string, verb: Method, data: Option<Payload>,
                                     sendToken: Option<bool>, response: Option<ErrorResponse>)
    ensures var x := ApiMethod<T>(b, url, verb, data, sendToken, Rejected(response));
            x.result.Failure? && x.result.error != ""
            && (!(response.Some? && response.value.status == Unauthorized) ==> x.browser == b)
  {
  }
}
