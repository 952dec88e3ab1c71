/** The tab as a whole: the layout, the shared context and the browser,
    driven by the events the user and the backend produce. Each handler runs
    atomically; afterwards React re-runs the route guard when the path or
    the layout's `loading` changed, and a full page load starts every
    component over. */
module App {
  import opened Wrappers
  import opened Storage
  import opened BrowserTab
  import opened AxiosClient
  import opened ApiServices
  import opened ChildLayout
  import opened AuthContext
  import AuthForms
  import SignIn
  import SignUp
  import NewArticle
  import Routes

  datatype App = App(browser: Browser, layout: Layout, context: Context)

  datatype Event =
    | MountEffects
    | UserNavigates(path: string)
    | LogoutConfirmed
    | SignInSubmitted(signIn: SignIn.SignInForm, signInOutcome: Outcome<AuthForms.AuthReply>)
    | SignUpSubmitted(signUp: SignUp.SignUpForm, signUpOutcome: Outcome<AuthForms.AuthReply>)
    | ArticleSubmitted(article: NewArticle.ArticleForm, createOutcome: Outcome<()>)
    | BackendCall(op: Operation, outcome: Outcome<()>)

  /** A freshly loaded tab. */
  function Load(b: Browser): (a: App)
    ensures a.browser == b
    ensures a.layout.loading && !a.layout.isAuthenticated && !a.context.isAuthenticated
  {
    App(b, ChildLayout.Initial, AuthContext.Initial)
  }

  /** What follows a handler: a full page load resets every component;
      otherwise the guard runs again if the path or `loading` changed. */
  function Settle(before: App, after: App): (r: App)
    ensures r.browser == after.browser.(route := r.browser.route)
    ensures r.browser.hasWindow == after.browser.hasWindow
    ensures r.browser.store == after.browser.store
    ensures after.browser.loads != before.browser.loads ==> r == Load(after.browser)
    ensures after.browser.loads == before.browser.loads ==> r.layout == after.layout && r.context == after.context
  {
    if after.browser.loads != before.browser.loads then Load(after.browser)
    else if after.browser.route != before.browser.route || after.layout.loading != before.layout.loading then
      after.(browser := GuardEffect(after.browser, after.layout))
    else after
  }

  /** The handler of one event. Notices are only ever appended, the page
      load count never goes down, and only the mount effect ends `loading`. */
  function Handle(a: App, e: Event): (r: App)
    requires a.browser.hasWindow
    ensures r.browser.hasWindow
    ensures a.browser.notices <= r.browser.notices
    ensures r.browser.loads >= a.browser.loads
    ensures r.layout.loading == (a.layout.loading && !e.MountEffects?)
    ensures e.MountEffects? && a.layout.loading ==>
      && r.browser == a.browser
      && r.layout.isAuthenticated == CheckAuthToken(a.browser)
      && r.context.isAuthenticated == CheckAuthToken(a.browser)
    ensures e.MountEffects? && !a.layout.loading ==> r == a
    ensures e.UserNavigates? ==> r == a.(browser := a.browser.(route := e.path))
    ensures e.LogoutConfirmed? ==>
      r.browser.route == Routes.PublicLanding && !CheckAuthToken(r.browser) && !r.layout.isAuthenticated
    ensures !e.MountEffects? && !e.SignUpSubmitted? ==> r.context == a.context
    ensures e.SignUpSubmitted? && e.signUpOutcome.Resolved? ==> r.context.isAuthenticated
  {
    var b := a.browser;
    match e
    case MountEffects =>
      if a.layout.loading then App(b, Mount(b, a.layout), ProviderMount(b, a.context)) else a
    case UserNavigates(path) => a.(browser := Navigate(b, path))
    case LogoutConfirmed =>
      var (b', l') := Logout(b, a.layout);
      App(b', l', a.context)
    case SignInSubmitted(values, outcome) =>
      a.(browser := SignIn.OnSubmit(b, values, outcome).browser)
    case SignUpSubmitted(values, outcome) =>
      var (s, ctx) := SignUp.OnSubmit(b, a.context, values, outcome);
      App(s.browser, a.layout, ctx)
    case ArticleSubmitted(values, outcome) =>
      a.(browser := NewArticle.HandleSubmit(b, values, outcome).browser)
    case BackendCall(op, outcome) =>
      a.(browser := Invoke(b, op, outcome).browser)
  }

  /** One event: its handler, then what React does next. */
  function Step(a: App, e: Event): (r: App)
    requires a.browser.hasWindow
    ensures r.browser.hasWindow
    ensures a.browser.notices <= r.browser.notices
    ensures r.browser.loads >= a.browser.loads
    ensures r.browser.store == Handle(a, e).browser.store
    ensures r.layout.loading ==> a.layout.loading || r.browser.loads != a.browser.loads
  {
    Settle(a, Handle(a, e))
  }

  /** The guard's promise about a settled tab: once resolved, the current
      route is one the token state allows. */
  predicate Consistent(a: App) {
    a.browser.hasWindow
    && (!a.layout.loading ==> Routes.Allowed(CheckAuthToken(a.browser), a.browser.route))
  }

  /** A form is submitted only from the page that renders it: the sign-in
      form is the page at "/" and the sign-up form the page at "/signup"
      (the two forms link to each other there). */
  predicate OnItsPage(a: App, e: Event) {
    && (e.SignInSubmitted? ==> a.browser.route == Routes.PublicLanding)
    && (e.SignUpSubmitted? ==> a.browser.route == Routes.SignUpRoute)
  }

  /** Every event keeps the tab consistent: no sign-in, sign-up, logout,
      navigation or backend failure leaves a resolved tab on a route the
      guard forbids. */
  lemma StepKeepsConsistent(a: App, e: Event)
    requires Consistent(a) && OnItsPage(a, e)
    ensures Consistent(Step(a, e))
  {
  }

  /** A sequence of events, one after another. A resolved layout goes back
      to loading only through a full page load. */
  function Run(a: App, events: seq<Event>): (r: App)
    requires a.browser.hasWindow
    ensures r.browser.hasWindow
    ensures a.browser.notices <= r.browser.notices
    ensures r.browser.loads >= a.browser.loads
    ensures r.layout.loading ==> a.layout.loading || r.browser.loads != a.browser.loads
    decreases |events|
  {
    if events == [] then a else Run(Step(a, events[0]), events[1..])
  }

  /** Each event of the sequence happens on a page that offers it. */
  predicate EachOnItsPage(a: App, events: seq<Event>)
    requires a.browser.hasWindow
    decreases |events|
  {
    events == [] || (OnItsPage(a, events[0]) && EachOnItsPage(Step(a, events[0]), events[1..]))
  }

  /** Any sequence of events keeps a consistent tab consistent. */
  lemma {:induction false} RunKeepsConsistent(a: App, events: seq<Event>)
    requires Consistent(a)
    requires EachOnItsPage(a, events)
    ensures Consistent(Run(a, events))
    decreases |events|
  {
    if events != [] {
      StepKeepsConsistent(a, events[0]);
      RunKeepsConsistent(Step(a, events[0]), events[1..]);
    }
  }

  /** Every tab reachable from a page load is consistent: `Load` leaves
      the layout loading, and a loading tab in a window is consistent
      whatever its route and store. */
  lemma {:induction false} ReachableIsConsistent(a: App, events: seq<Event>)
    requires a.browser.hasWindow && a.layout.loading
    requires EachOnItsPage(a, events)
    ensures Consistent(Run(a, events))
  {
    RunKeepsConsistent(a, events);
  }

  /** The page constraint matters: a sign-in submitted on "/articles",
      where the app renders no sign-in form, whose reply holds an empty
      token would leave a resolved tab on a protected route with no token,
      because the path did not change and the guard does not run again. */
  lemma EmptyTokenBypassesGuard(b: Browser, values: SignIn.SignInForm, user: User)
    requires b.hasWindow && b.route == Routes.ProtectedLanding
    requires TokenKey in b.store && b.store[TokenKey] == Text("t")
    ensures var a1 := Step(Load(b), MountEffects);
            var a2 := Step(a1, SignInSubmitted(values, Resolved(AuthForms.AuthReply(user, Some(""), None))));
            Consistent(a1) && !a2.layout.loading && !Consistent(a2)
  {
  }

  /** The shared flag changes only through its mount effect, through the
      setter (which only a successful sign-up calls) or by a page load;
      sign-in in particular never touches it. */
  lemma ContextChangesOnlyThroughSetter(a: App, e: Event)
    requires a.browser.hasWindow
    requires Step(a, e).browser.loads == a.browser.loads
    ensures Step(a, e).context != a.context ==>
      e.MountEffects? || (e.SignUpSubmitted? && e.signUpOutcome.Resolved?)
    ensures e.SignInSubmitted? ==> Step(a, e).context == a.context
  {
  }

  /** A sign-up success sets the shared flag; a sign-in success leaves both
      flags as they were although a token is now stored, so the layout's
      flag can disagree with storage until the next page load. */
  lemma SignInLeavesFlagsStale(b: Browser, values: SignIn.SignInForm, reply: AuthForms.AuthReply)
    requires b.hasWindow && TokenKey !in b.store && b.route == Routes.PublicLanding
    requires reply.token != Some("")
    ensures var a1 := Step(Load(b), MountEffects);
            var a2 := Step(a1, SignInSubmitted(values, Resolved(reply)));
            !a1.layout.isAuthenticated && !a2.layout.isAuthenticated && !a2.context.isAuthenticated
            && CheckAuthToken(a2.browser) && a2.browser.route == Routes.ProtectedLanding
  {
  }

  /** A 401 from any call, in any state, ends (after the reload's mount) on
      the public landing route with no token and both flags false, and the
      guard has nothing more to do there. */
  lemma ExpiryThenRemount(a: App, op: Operation, response: ErrorResponse)
    requires a.browser.hasWindow && response.status == Unauthorized
    ensures var a1 := Step(a, BackendCall(op, Rejected(Some(response))));
            var a2 := Step(a1, MountEffects);
            a1.layout.loading
            && !a2.layout.loading && !a2.layout.isAuthenticated && !a2.context.isAuthenticated
            && !CheckAuthToken(a2.browser) && a2.browser.route == Routes.PublicLanding
            && (AuthUserKey in a.browser.store ==> AuthUserKey in a2.browser.store)
  {
  }

  /** After logout the tab is resolved on the public landing route with an
      empty store, and a second logout changes nothing but the notices. */
  lemma LogoutSettles(a: App)
    requires a.browser.hasWindow && !a.layout.loading
    ensures var a1 := Step(a, LogoutConfirmed);
            var a2 := Step(a1, LogoutConfirmed);
            a1.browser.route == Routes.PublicLanding && a1.browser.store == map[]
            && !a1.layout.isAuthenticated && !CheckAuthToken(a1.browser)
            && a2.(browser := a2.browser.(notices := a1.browser.notices)) == a1
  {
  }
}
