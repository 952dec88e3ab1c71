/** The sign-in form (src/components/sign-in/index.tsx). */
module SignIn {
  import opened Wrappers
  import opened Storage
  import opened BrowserTab
  import opened AxiosClient
  import opened ApiMethods
  import opened ApiServices
  import opened AuthForms
  import opened Forms
  import FormSchema
  import Routes

  datatype SignInForm = SignInForm(email: string, password: string)

  const EmptyForm: SignInForm := SignInForm("", "")
  const DefaultSuccess: string := "Signin successful"
  const DefaultFailure: string := "Signin failed"

  function Body(values: SignInForm): Payload {
    SignInBody(values.email, values.password)
  }

  /** `onSubmit`: on success reset the form, go to the article list and
      persist token and user, then show the reply's message; on failure show
      the error's message. `loading` ends false either way, and the shared
      authenticated flag is never touched. */
  function OnSubmit(b: Browser, values: SignInForm, outcome: Outcome<AuthReply>): (s: Step<SignInForm>)
    requires b.hasWindow
    ensures !s.view.loading
    ensures s.sent == Some(Invoke(b, SignIn(Body(values)), outcome).request)
    ensures outcome.Resolved? ==>
      && s.browser.route == Routes.ProtectedLanding
      && TokenKey in s.browser.store && AuthUserKey in s.browser.store
      && s.browser.store[TokenKey] == StoredToken(outcome.data.token)
      && s.browser.store[AuthUserKey] == UserJson(outcome.data.user)
      && (forall k :: k in b.store && k != TokenKey && k != AuthUserKey ==> k in s.browser.store && s.browser.store[k] == b.store[k])
      && s.browser.notices == b.notices + [Notice(Good, OrElse(outcome.data.message, DefaultSuccess))]
      && s.view.values == EmptyForm
      && (CheckAuthToken(s.browser) <==> outcome.data.token != Some(""))
    ensures outcome.Rejected? ==>
      && s.view.values == values
      && s.browser == Notify(Intercept(b, outcome).0, Bad, ErrorMessage(outcome.response))
  {
    var x := Invoke(b, SignIn(Body(values)), outcome);
    match x.result
    case Success(reply) =>
      var b1 := Navigate(x.browser, Routes.ProtectedLanding);
      var b2 := PersistSession(b1, reply);
      Step(Notify(b2, Good, OrElse(reply.message, DefaultSuccess)), FormView(EmptyForm, false), Some(x.request))
    case Failure(msg) =>
      Step(Notify(x.browser, Bad, OrElse(Some(msg), DefaultFailure)), FormView(values, false), Some(x.request))
  }

  /** A submission: Formik validates first, and the button is disabled while
      the form is invalid or submitting, so only a valid, idle form reaches
      `onSubmit`. */
  function Submit(b: Browser, view: FormView<SignInForm>, isEmail: string -> bool, submitting: bool,
                  outcome: Outcome<AuthReply>): (s: Step<SignInForm>)
    requires b.hasWindow
    ensures s.sent.Some?
      <==> SubmitEnabled(FormSchema.SignInValid(FormSchema.SignInCheck(view.values.email, isEmail, view.values.password)), submitting)
    ensures s.sent.None? ==> s.browser == b && s.view == view
  {
    if SubmitEnabled(FormSchema.SignInValid(FormSchema.SignInCheck(view.values.email, isEmail, view.values.password)), submitting)
    then OnSubmit(b, view.values, outcome)
    else Step(b, view, None)
  }

  /** The failure notice is always the normalised error's message; since
      that is never empty, the "Signin failed" fallback is never used: the
      text can only read so when the backend itself said so. */
  lemma FailureNotice(b: Browser, values: SignInForm, response: Option<ErrorResponse>)
    requires b.hasWindow
    ensures var s := OnSubmit(b, values, Rejected(response));
            Last(s.browser.notices) == Notice(Bad, ErrorMessage(response))
            && (Last(s.browser.notices).text == DefaultFailure
                ==> response.Some? && response.value.message == Some(DefaultFailure))
  {
  }

  /** A failure other than a 401 changes nothing but the notices; a 401
      drops the token only and reloads at "/", keeping the cached user. */
  lemma FailureLeavesSession(b: Browser, values: SignInForm, response: Option<ErrorResponse>)
    requires b.hasWindow
    ensures var s := OnSubmit(b, values, Rejected(response));
            (!IsUnauthorized<AuthReply>(Rejected(response)) ==> s.browser.store == b.store && s.browser.route == b.route)
            && (IsUnauthorized<AuthReply>(Rejected(response)) ==>
                  s.browser.store == RemoveItem(b.store, TokenKey) && s.browser.route == Routes.PublicLanding)
  {
  }

  /** The request carries exactly the two form fields to the login path. */
  lemma SentRequest(b: Browser, values: SignInForm, outcome: Outcome<AuthReply>)
    requires b.hasWindow
    ensures var r := OnSubmit(b, values, outcome).sent.value;
            r.url == "api/v1/auth/login/" && r.verb == Post
            && r.body == Some(SignInBody(values.email, values.password))
  {
  }

  function Last<T>(s: seq<T>): T
    requires |s| > 0
  {
    s[|s| - 1]
  }
}
