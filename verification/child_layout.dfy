/** The root layout component (src/components/childLayout.tsx): a loading
    gate, a local authenticated flag, the route-guard effect and logout. */
module ChildLayout {
  import opened Wrappers
  import opened Storage
  import opened BrowserTab
  import Routes

  /** The layout's own state. `loading` is the Unresolved/Resolved phase. */
  datatype Layout = Layout(loading: bool, isAuthenticated: bool)

  /** State before the mount effect has run. */
  const Initial: Layout := Layout(true, false)

  const LogoutMessage: string := "Logout successful"

  /** The mount effect: resolve the flag from storage, then stop loading. */
  function Mount(b: Browser, l: Layout): (r: Layout)
    ensures !r.loading
    ensures r.isAuthenticated
      <==> (b.hasWindow && TokenKey in b.store
            && !(b.store[TokenKey].Text? && b.store[TokenKey].text == ""))
  {
    Layout(false, CheckAuthToken(b))
  }

  /** The route-guard effect: inert while loading; otherwise redirects
      according to `Routes.Guard` and touches nothing but the route. */
  function GuardEffect(b: Browser, l: Layout): (r: Browser)
    ensures l.loading ==> r == b
    ensures r.store == b.store && r.notices == b.notices
    ensures r.hasWindow == b.hasWindow && r.loads == b.loads
    ensures !l.loading ==> Routes.Allowed(CheckAuthToken(b), r.route)
    ensures Routes.Allowed(CheckAuthToken(b), b.route) ==> r == b
  {
    if l.loading then b
    else
      match Routes.Guard(CheckAuthToken(b), b.route)
      case Some(target) => Navigate(b, target)
      case None => b
  }

  /** Children are rendered only once loading is over. */
  predicate RendersChildren(l: Layout) {
    !l.loading
  }

  /** `handleLogout`: navigate to "/", clear the whole store, drop the flag
      and confirm. It never fails. */
  function Logout(b: Browser, l: Layout): (r: (Browser, Layout))
    ensures forall k :: k !in r.0.store
    ensures r.0.route == Routes.PublicLanding
    ensures !r.1.isAuthenticated && r.1.loading == l.loading
    ensures r.0.notices == b.notices + [Notice(Good, LogoutMessage)]
    ensures r.0.hasWindow == b.hasWindow && r.0.loads == b.loads
    ensures !CheckAuthToken(r.0)
  {
    var b1 := Navigate(b, Routes.PublicLanding);
    var b2 := b1.(store := Clear(b1.store));
    (Notify(b2, Good, LogoutMessage), l.(isAuthenticated := false))
  }

  /** Before the mount effect nothing is rendered and the guard does
      nothing, whatever the route and the store. */
  lemma InertBeforeMount(b: Browser)
    ensures !RendersChildren(Initial)
    ensures GuardEffect(b, Initial) == b
    ensures !Initial.isAuthenticated
  {
  }

  /** Mounting resolves the layout once: mounting again changes nothing
      as long as storage has not changed. */
  lemma MountResolvesOnce(b: Browser, l: Layout)
    ensures RendersChildren(Mount(b, l))
    ensures Mount(b, Mount(b, l)) == Mount(b, l)
  {
  }

  /** Running the guard twice is the same as running it once. */
  lemma GuardEffectIdempotent(b: Browser, l: Layout)
    ensures GuardEffect(GuardEffect(b, l), l) == GuardEffect(b, l)
  {
  }

  /** Logging out twice leaves the same store, route and flag as logging out
      once; only the confirmation is shown a second time. */
  lemma LogoutTwice(b: Browser, l: Layout)
    ensures var once := Logout(b, l);
            var twice := Logout(once.0, once.1);
            twice.0.store == once.0.store && twice.0.route == once.0.route
            && twice.1 == once.1
            && twice.0.notices == once.0.notices + [Notice(Good, LogoutMessage)]
  {
  }
}
