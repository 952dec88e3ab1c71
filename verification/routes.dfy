/** Route classification and the navigation guard of
    src/components/childLayout.tsx as a pure function of token presence and
    the path. */
module Routes {
  import opened Wrappers

  /** `PUBLIC_ROUTES`: matched by exact membership. */
  const PublicRoutes: seq<string> := ["/", "/signup"]

  /** The sign-up page; the sign-in page is the public landing route. */
  const SignUpRoute: string := "/signup"

  /** Protected routes are matched by prefix. */
  const ProtectedPrefix: string := "/articles"

  /** Where an anonymous visitor of a protected route is sent. */
  const PublicLanding: string := "/"

  /** Where a signed-in visitor of a public route is sent. */
  const ProtectedLanding: string := "/articles"

  predicate IsPublic(path: string) {
    path in PublicRoutes
  }

  predicate IsProtected(path: string) {
    StartsWith(path, ProtectedPrefix)
  }

  /** The access policy the guard enforces: public routes are for visitors
      without a token, protected routes for visitors with one, every other
      route for everybody. */
  predicate Allowed(hasToken: bool, path: string) {
    (hasToken ==> !IsPublic(path)) && (!hasToken ==> !IsProtected(path))
  }

  /** The route-guard effect's decision: the redirect to issue, if any. */
  function Guard(hasToken: bool, path: string): (r: Option<string>)
    ensures r.None? <==> Allowed(hasToken, path)
    ensures r.Some? ==> Allowed(hasToken, r.value)
    ensures r.Some? ==> r.value == (if hasToken then ProtectedLanding else PublicLanding)
  {
    if hasToken && IsPublic(path) then Some(ProtectedLanding)
    else if !hasToken && IsProtected(path) then Some(PublicLanding)
    else None
  }

  /** No path is both public and protected, so at most one redirect fires. */
  lemma PublicProtectedDisjoint(path: string)
    ensures !(IsPublic(path) && IsProtected(path))
  {
  }

  /** The guard, spelled out over the literal route table. */
  lemma GuardCases(hasToken: bool, path: string)
    ensures Guard(hasToken, path) == Some("/articles")
      <==> hasToken && (path == "/" || path == "/signup")
    ensures Guard(hasToken, path) == Some("/")
      <==> !hasToken && |path| >= 9 && path[..9] == "/articles"
    ensures Guard(hasToken, path) == None
      <==> ((hasToken && path != "/" && path != "/signup")
            || (!hasToken && !(|path| >= 9 && path[..9] == "/articles")))
  {
  }

  /** Redirect targets are fixpoints: following a redirect never triggers
      another one. */
  lemma RedirectTargetIsFixpoint(hasToken: bool, path: string)
    requires Guard(hasToken, path).Some?
    ensures Guard(hasToken, Guard(hasToken, path).value) == None
  {
  }

  /** Both landing routes are stable under the guard for the token state
      that leads to them. */
  lemma LandingRoutesStable()
    ensures Guard(true, ProtectedLanding) == None
    ensures Guard(false, PublicLanding) == None
  {
  }

  /** A path that is neither public nor protected is never redirected. */
  lemma UnclassifiedNeverRedirected(hasToken: bool, path: string)
    requires !IsPublic(path) && !IsProtected(path)
    ensures Guard(hasToken, path) == None
  {
  }

  /** For instance "/foo" and "/article" (no trailing "s"). */
  lemma UnclassifiedExamples(hasToken: bool)
    ensures Guard(hasToken, "/foo") == None
    ensures Guard(hasToken, "/article") == None
    ensures Guard(false, "/articles/42/edit") == Some("/")
  {
  }
}
