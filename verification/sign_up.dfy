/** The sign-up form (src/components/sign-up/index.tsx). Unlike sign-in it
    also sets the shared authenticated flag on success. */
module SignUp {
  import opened Wrappers
  import opened Storage
  import opened BrowserTab
  import opened AxiosClient
  import opened ApiMethods
  import opened ApiServices
  import opened AuthForms
  import opened Forms
  import opened AuthContext
  import FormSchema
  import Routes

  datatype SignUpForm = SignUpForm(name: string, email: string, password: string, confirmPassword: string)

  const EmptyForm: SignUpForm := SignUpForm("", "", "", "")
  const DefaultSuccess: string := "Signup successful"
  const DefaultFailure: string := "Signup failed"

  /** All four fields are sent, the confirmation included. */
  function Body(values: SignUpForm): Payload {
    SignUpBody(values.name, values.email, values.password, values.confirmPassword)
  }

  /** `onSubmit`: as sign-in on the storage and route, and additionally the
      shared flag becomes true on success; a failure leaves flag, store and
      route as the interceptor left them. */
  function OnSubmit(b: Browser, ctx: Context, values: SignUpForm, outcome: Outcome<AuthReply>): (r: (Step<SignUpForm>, Context))
    requires b.hasWindow
    ensures !r.0.view.loading
    ensures r.0.sent == Some(Invoke(b, SignUp(Body(values)), outcome).request)
    ensures outcome.Resolved? ==>
      && r.0.browser.route == Routes.ProtectedLanding
      && TokenKey in r.0.browser.store && AuthUserKey in r.0.browser.store
      && r.0.browser.store[TokenKey] == StoredToken(outcome.data.token)
      && r.0.browser.store[AuthUserKey] == UserJson(outcome.data.user)
      && (forall k :: k in b.store && k != TokenKey && k != AuthUserKey ==> k in r.0.browser.store && r.0.browser.store[k] == b.store[k])
      && r.0.browser.notices == b.notices + [Notice(Good, OrElse(outcome.data.message, DefaultSuccess))]
      && r.0.view.values == EmptyForm
      && r.1.isAuthenticated
    ensures outcome.Rejected? ==>
      && r.1 == ctx
      && r.0.view.values == values
      && r.0.browser == Notify(Intercept(b, outcome).0, Bad, ErrorMessage(outcome.response))
  {
    var x := Invoke(b, SignUp(Body(values)), outcome);
    match x.result
    case Success(reply) =>
      var b1 := Navigate(x.browser, Routes.ProtectedLanding);
      var b2 := PersistSession(b1, reply);
      var ctx' := SetIsAuthenticated(ctx, true);
      (Step(Notify(b2, Good, OrElse(reply.message, DefaultSuccess)), FormView(EmptyForm, false), Some(x.request)), ctx')
    case Failure(msg) =>
      (Step(Notify(x.browser, Bad, OrElse(Some(msg), DefaultFailure)), FormView(values, false), Some(x.request)), ctx)
  }

  /** A submission reaches `onSubmit` only with a valid, idle form. */
  function Submit(b: Browser, ctx: Context, view: FormView<SignUpForm>, isEmail: string -> bool, submitting: bool,
                  outcome: Outcome<AuthReply>): (r: (Step<SignUpForm>, Context))
    requires b.hasWindow
    ensures r.0.sent.Some?
      <==> SubmitEnabled(FormSchema.SignUpValid(Check(view.values, isEmail)), submitting)
    ensures r.0.sent.None? ==> r.0.browser == b && r.0.view == view && r.1 == ctx
  {
    if SubmitEnabled(FormSchema.SignUpValid(Check(view.values, isEmail)), submitting)
    then OnSubmit(b, ctx, view.values, outcome)
    else (Step(b, view, None), ctx)
  }

  function Check(values: SignUpForm, isEmail: string -> bool): FormSchema.SignUpErrors {
    FormSchema.SignUpCheck(values.name, values.email, isEmail, values.password, values.confirmPassword)
  }

  /** The request carries all four fields to the sign-up path. */
  lemma SentRequest(b: Browser, ctx: Context, values: SignUpForm, outcome: Outcome<AuthReply>)
    requires b.hasWindow
    ensures var r := OnSubmit(b, ctx, values, outcome).0.sent.value;
            r.url == "api/v1/auth/signup" && r.verb == Post
            && r.body == Some(SignUpBody(values.name, values.email, values.password, values.confirmPassword))
  {
  }
}
