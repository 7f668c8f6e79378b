/**
 * The route guard run before every page request. Its inputs are the request's
 * pathname, whether the auth backend reports a signed-in user, and whether a
 * `session` cookie is present; it either lets the request through or redirects.
 */
module Middleware {
  import opened Wrappers
  import opened JsString

  const SIGN_IN := "/sign-in"
  const ROOT := "/"
  const PROTECTED_ROUTES: seq<string> := ["/home", "/"]

  datatype Response =
    | Next
    /** A redirect to `path`, with the `redirectedFrom` query parameter when present. */
    | Redirect(path: string, redirectedFrom: Option<string>)

  /** `${route}`: interpolating a string into a template literal gives the string. */
  function Interpolate(route: string): string { route }

  /** `mappedProtectedRoutes()` returns the protected routes element for element. */
  function MappedProtectedRoutes(): (r: seq<string>)
    ensures r == PROTECTED_ROUTES
  {
    seq(|PROTECTED_ROUTES|, i requires 0 <= i < |PROTECTED_ROUTES| => Interpolate(PROTECTED_ROUTES[i]))
  }

  predicate RouteMatches(pathname: string, route: string) {
    pathname == route || StartsWith(pathname, route)
  }

  /** Some route either equals the path or is a prefix of it. */
  function AnyRouteMatches(routes: seq<string>, pathname: string): (r: bool)
    ensures r <==> exists i :: 0 <= i < |routes| && RouteMatches(pathname, routes[i])
    decreases |routes|
  {
    if routes == [] then false
    else RouteMatches(pathname, routes[0]) || AnyRouteMatches(routes[1..], pathname)
  }

  function IsProtectedRoute(pathname: string): bool {
    AnyRouteMatches(MappedProtectedRoutes(), pathname)
  }

  /** The middleware as written. */
  function Middleware(pathname: string, hasUser: bool, hasSessionCookie: bool): (r: Response)
    ensures r.Redirect? ==> r.path in {ROOT, SIGN_IN}
    ensures r.Redirect? && r.path == SIGN_IN ==> !hasUser && r.redirectedFrom == Some(pathname)
  {
    if pathname == SIGN_IN && hasUser then Redirect(ROOT, None)
    else if pathname == SIGN_IN && !hasSessionCookie then Next
    else if IsProtectedRoute(pathname) && !hasUser then Redirect(SIGN_IN, Some(pathname))
    else Next
  }

  /** Because "/" is a protected route and the test is `startsWith`, a path is protected exactly when it begins with "/". */
  lemma EveryPathProtected(pathname: string)
    ensures IsProtectedRoute(pathname) <==> StartsWith(pathname, "/")
  {
    if StartsWith(pathname, "/") {
      assert RouteMatches(pathname, PROTECTED_ROUTES[1]);
    }
    if IsProtectedRoute(pathname) {
      var i :| 0 <= i < |PROTECTED_ROUTES| && RouteMatches(pathname, PROTECTED_ROUTES[i]);
      assert PROTECTED_ROUTES[i][..1] == "/";
      assert pathname[..1] == PROTECTED_ROUTES[i][..1];
    }
  }

  /** The whole decision for every URL pathname (they all begin with "/"). */
  lemma DecisionTable(pathname: string, hasUser: bool, hasSessionCookie: bool)
    requires StartsWith(pathname, "/")
    ensures Middleware(pathname, hasUser, hasSessionCookie) ==
      if hasUser then (if pathname == SIGN_IN then Redirect(ROOT, None) else Next)
      else if pathname == SIGN_IN && !hasSessionCookie then Next
      else Redirect(SIGN_IN, Some(pathname))
  {
    EveryPathProtected(pathname);
  }

  /** `/sign-in` with a signed-in user redirects home. */
  lemma SignedInAwayFromSignIn(hasSessionCookie: bool)
    ensures Middleware(SIGN_IN, true, hasSessionCookie) == Redirect(ROOT, None)
  {
  }

  /** `/sign-in` with neither a user nor a `session` cookie is let through. */
  lemma SignInOpenWithoutSession()
    ensures Middleware(SIGN_IN, false, false) == Next
  {
  }

  /** An unauthenticated request to a protected path goes to `/sign-in?redirectedFrom=<path>`. */
  lemma UnauthenticatedRedirected(pathname: string, hasSessionCookie: bool)
    requires IsProtectedRoute(pathname) && pathname != SIGN_IN
    ensures Middleware(pathname, false, hasSessionCookie) == Redirect(SIGN_IN, Some(pathname))
  {
  }

  /** A signed-in request to anything but `/sign-in` is let through. */
  lemma SignedInPassesElsewhere(pathname: string, hasSessionCookie: bool)
    requires pathname != SIGN_IN
    ensures Middleware(pathname, true, hasSessionCookie) == Next
  {
  }

  /**
   * As written: `/sign-in` with a `session` cookie but no user redirects to
   * `/sign-in` itself, and the browser, which still holds the cookie, follows it
   * to the same answer again: a redirect loop.
   */
  lemma StaleCookieRedirectLoop()
    ensures Middleware(SIGN_IN, false, true) == Redirect(SIGN_IN, Some(SIGN_IN))
  {
    EveryPathProtected(SIGN_IN);
  }

  /**
   * The evident intent: the sign-in page stays open to anyone without a user,
   * whatever cookies they carry.
   */
  function MiddlewareCorrected(pathname: string, hasUser: bool, hasSessionCookie: bool): (r: Response)
    ensures pathname == SIGN_IN && !hasUser ==> r == Next
    ensures pathname != SIGN_IN ==> r == Middleware(pathname, hasUser, hasSessionCookie)
    ensures hasUser ==> r == Middleware(pathname, hasUser, hasSessionCookie)
    ensures pathname == SIGN_IN && hasUser ==> r == Redirect(ROOT, None)
  {
    if pathname == SIGN_IN then (if hasUser then Redirect(ROOT, None) else Next)
    else if IsProtectedRoute(pathname) && !hasUser then Redirect(SIGN_IN, Some(pathname))
    else Next
  }

  /** The corrected guard never loops: following any redirect it gives leads to a page it lets through. */
  lemma CorrectedNoRedirectLoop(pathname: string, hasUser: bool, hasSessionCookie: bool)
    ensures var r := MiddlewareCorrected(pathname, hasUser, hasSessionCookie);
      r.Redirect? ==> r.path != pathname && MiddlewareCorrected(r.path, hasUser, hasSessionCookie) == Next
  {
    EveryPathProtected(ROOT);
  }
}
