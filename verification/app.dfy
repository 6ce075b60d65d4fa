/**
 * The application shell: the effect that drops the session token on the
 * public pages, and the route table.
 */
module App {
  import opened Text
  import opened Storage
  import DashboardPage

  /** The paths on which the token is removed; `includes` compares them exactly. */
  predicate IsPublicPath(pathname: string) {
    pathname == "/" || pathname == "/signin" || pathname == "/signup"
  }

  /**
   * The store after the pathname effect has run: on a public path the token
   * is gone, anywhere else nothing changes, and no other key is ever touched.
   */
  function AfterNavigation(pathname: string, items: map<string, string>): (r: map<string, string>)
    ensures IsPublicPath(pathname) ==> TokenKey !in r
    ensures !IsPublicPath(pathname) ==> r == items
    ensures forall k :: k != TokenKey ==> (k in r <==> k in items)
    ensures forall k :: k in r ==> r[k] == items[k]
  {
    if IsPublicPath(pathname) then items - {TokenKey} else items
  }

  /** The `useEffect` on `location.pathname`. */
  method OnPathnameChange(storage: LocalStorage, pathname: string)
    modifies storage
    ensures storage.items == AfterNavigation(pathname, old(storage.items))
  {
    if IsPublicPath(pathname) {
      storage.RemoveItem(TokenKey);
    }
  }

  /** Running the effect again on the same path changes nothing more. */
  lemma NavigationIdempotent(pathname: string, items: map<string, string>)
    ensures AfterNavigation(pathname, AfterNavigation(pathname, items)) == AfterNavigation(pathname, items)
  {
  }

  /** The theme colour and font size survive every navigation. */
  lemma NavigationKeepsPreferences(pathname: string, items: map<string, string>)
    ensures DashboardPage.LoadPreferences(AfterNavigation(pathname, items)) == DashboardPage.LoadPreferences(items)
  {
  }

  /**
   * The token sign-in stores is still there when the dashboard opens, and is
   * gone again once the user returns to a public page.
   */
  lemma SignInTokenLifetime(items: map<string, string>, token: string, pathname: string)
    ensures AfterNavigation("/dashboard", items[TokenKey := token])[TokenKey] == token
    ensures IsPublicPath(pathname) ==> TokenKey !in AfterNavigation(pathname, items[TokenKey := token])
  {
  }

  /** The pages of the route table. The dashboard is wrapped in the route guard. */
  datatype Page = Landing | SignInForm | SignupForm | ProtectedDashboard | NotFound

  /** `s` with its ASCII letters lower-cased. */
  function LowerAscii(s: string): (r: string)
    ensures |r| == |s| && forall i :: 0 <= i < |s| ==> r[i] == ToLower(s[i])
  {
    seq(|s|, i requires 0 <= i < |s| => ToLower(s[i]))
  }

  /** `s` without the slashes at its end. */
  function StripTrailingSlashes(s: string): (r: string)
    ensures |r| <= |s| && r == s[..|r|]
    ensures r == [] || r[|r| - 1] != '/'
    ensures forall k :: |r| <= k < |s| ==> s[k] == '/'
  {
    if |s| > 0 && s[|s| - 1] == '/' then StripTrailingSlashes(s[..|s| - 1]) else s
  }

  /** The part of a pathname that decides its route: lower-cased, trailing slashes dropped. */
  function RoutePath(pathname: string): string {
    StripTrailingSlashes(LowerAscii(pathname))
  }

  /**
   * Whether a route's pattern matches `pathname`. The router compiles a route
   * path into a regular expression anchored at both ends, with any number of
   * slashes allowed after the route and the `i` flag: letters compare
   * regardless of case (only ASCII letters fold to ASCII ones).
   */
  predicate MatchesRoute(pathname: string, route: string) {
    && |route| <= |pathname|
    && LowerAscii(pathname[..|route|]) == route
    && forall k :: |route| <= k < |pathname| ==> pathname[k] == '/'
  }

  /** A route that does not end in a slash matches exactly the pathnames whose route path it is. */
  lemma MatchesRouteIff(pathname: string, route: string)
    requires |route| > 0 && route[|route| - 1] != '/'
    ensures MatchesRoute(pathname, route) <==> RoutePath(pathname) == route
  {
  }

  /** The root route `/` matches exactly the non-empty pathnames made of slashes only. */
  lemma MatchesRootIff(pathname: string)
    ensures MatchesRoute(pathname, "/") <==> pathname != [] && RoutePath(pathname) == []
  {
  }

  /**
   * The `<Routes>` table: the first of the four routes whose pattern matches,
   * else the catch-all. A pathname routes by its lower-cased form with the
   * trailing slashes dropped.
   */
  function RouteFor(pathname: string): (page: Page)
    ensures page == Landing <==> pathname != [] && RoutePath(pathname) == []
    ensures page == SignInForm <==> RoutePath(pathname) == "/signin"
    ensures page == SignupForm <==> RoutePath(pathname) == "/signup"
    ensures page == ProtectedDashboard <==> RoutePath(pathname) == "/dashboard"
  {
    MatchesRootIff(pathname);
    MatchesRouteIff(pathname, "/signin");
    MatchesRouteIff(pathname, "/signup");
    MatchesRouteIff(pathname, "/dashboard");
    if MatchesRoute(pathname, "/") then Landing
    else if MatchesRoute(pathname, "/signin") then SignInForm
    else if MatchesRoute(pathname, "/signup") then SignupForm
    else if MatchesRoute(pathname, "/dashboard") then ProtectedDashboard
    else NotFound
  }

  /** The pages on which the session is meant to end: landing, sign-in and sign-up. */
  predicate RendersPublicPage(pathname: string) {
    RouteFor(pathname) in {Landing, SignInForm, SignupForm}
  }

  /** Every path the effect clears the token on renders a public page. */
  lemma ClearingPathsArePublicPages(pathname: string)
    ensures IsPublicPath(pathname) ==> RendersPublicPage(pathname)
  {
  }

  /** The converse fails: "/signin/" and "/SignUp" render public pages, yet the token stays. */
  lemma PublicPageKeepsToken(items: map<string, string>, token: string)
    ensures RouteFor("/signin/") == SignInForm && AfterNavigation("/signin/", items[TokenKey := token])[TokenKey] == token
    ensures RouteFor("/SignUp") == SignupForm && AfterNavigation("/SignUp", items[TokenKey := token])[TokenKey] == token
  {
    MatchesRouteIff("/signin/", "/signin");
    assert LowerAscii("/signin/") == "/signin/";
    MatchesRouteIff("/SignUp", "/signup");
    assert LowerAscii("/SignUp") == "/signup";
  }

  /**
   * The evidently intended effect: the token is dropped wherever the router
   * renders a public page, and no other key is touched.
   */
  function AfterNavigationByRoute(pathname: string, items: map<string, string>): (r: map<string, string>)
    ensures TokenKey in r <==> TokenKey in items && !RendersPublicPage(pathname)
    ensures forall k :: k != TokenKey ==> (k in r <==> k in items)
    ensures forall k :: k in r ==> r[k] == items[k]
  {
    if RendersPublicPage(pathname) then items - {TokenKey} else items
  }

  /**
   * The route-based rule does everything the effect as written does, and also
   * clears the token on "/signin/" and "/SignUp"; the dashboard keeps it.
   */
  lemma ByRouteExtendsExactPaths(pathname: string, items: map<string, string>)
    ensures IsPublicPath(pathname) ==> AfterNavigationByRoute(pathname, items) == AfterNavigation(pathname, items)
    ensures TokenKey !in AfterNavigationByRoute("/signin/", items)
    ensures TokenKey !in AfterNavigationByRoute("/SignUp", items)
    ensures AfterNavigationByRoute("/dashboard", items) == items
  {
    ClearingPathsArePublicPages(pathname);
    PublicPageKeepsToken(items, "");
  }
}
