/**
 * The authentication gate of middleware.ts: public paths and framework assets pass;
 * any other path passes when either session cookie is present and is otherwise sent
 * to the login page with the original path in `from`.
 */
module RouteGate {
  import opened Strings

  const PublicPaths: seq<string> :=
    ["/", "/login", "/register", "/reset-password"]
    + ["/api/auth", "/api/shipdelight/generate-token", "/api/shipdelight/track-order"]

  const AuthCookie := "firebase-auth-token"
  const UserCookie := "user-data"

  /** `PUBLIC_PATHS.some(path => pathname.startsWith(path))`. */
  predicate StartsWithPublicPath(pathname: string) {
    exists i :: 0 <= i < |PublicPaths| && StartsWith(pathname, PublicPaths[i])
  }

  /** The framework's own files. */
  predicate IsAssetPath(pathname: string) {
    Contains(pathname, "/_next") || Contains(pathname, "/favicon.ico") || Contains(pathname, "/assets/")
  }

  datatype Decision = Continue | RedirectToLogin(from: string)

  /** `middleware` as written; a request's cookies are a map from name to value. */
  function Gate(pathname: string, cookies: map<string, string>): (d: Decision)
    ensures d.RedirectToLogin? ==> d.from == pathname
    ensures d.RedirectToLogin? <==>
      !StartsWithPublicPath(pathname) && !IsAssetPath(pathname) && AuthCookie !in cookies && UserCookie !in cookies
  {
    if StartsWithPublicPath(pathname) || IsAssetPath(pathname) then Continue
    else if AuthCookie !in cookies && UserCookie !in cookies then RedirectToLogin(pathname)
    else Continue
  }

  /** Either cookie alone lets a request through. */
  lemma EitherCookieSuffices(pathname: string, cookies: map<string, string>)
    requires AuthCookie in cookies || UserCookie in cookies
    ensures Gate(pathname, cookies) == Continue
  {
  }

  /** Only which of the two cookies are present matters, never their values or any
      other cookie. */
  lemma GateReadsOnlyCookiePresence(pathname: string, c1: map<string, string>, c2: map<string, string>)
    requires (AuthCookie in c1 <==> AuthCookie in c2) && (UserCookie in c1 <==> UserCookie in c2)
    ensures Gate(pathname, c1) == Gate(pathname, c2)
  {
  }

  /** As written, "/" is a public path and the match is by prefix, so every path that
      starts with "/" (which every request path does) passes, with or without cookies. */
  lemma EveryRootedPathPasses(pathname: string, cookies: map<string, string>)
    requires StartsWith(pathname, "/")
    ensures StartsWithPublicPath(pathname)
    ensures Gate(pathname, cookies) == Continue
  {
    assert PublicPaths[0] == "/";
  }

  /** "/dashboard" reaches the dashboard with no session cookie at all. */
  lemma DashboardOpenWithoutSession()
    ensures Gate("/dashboard", map[]) == Continue
  {
    EveryRootedPathPasses("/dashboard", map[]);
  }

  /** The evidently intended public test: "/" is the home page alone, the other entries
      are prefixes. */
  predicate IsPublicIntended(pathname: string) {
    pathname == "/" || exists i :: 1 <= i < |PublicPaths| && StartsWith(pathname, PublicPaths[i])
  }

  function GateIntended(pathname: string, cookies: map<string, string>): (d: Decision)
    ensures d.RedirectToLogin? ==> d.from == pathname
    ensures d.RedirectToLogin? <==>
      !IsPublicIntended(pathname) && !IsAssetPath(pathname) && AuthCookie !in cookies && UserCookie !in cookies
  {
    if IsPublicIntended(pathname) || IsAssetPath(pathname) then Continue
    else if AuthCookie !in cookies && UserCookie !in cookies then RedirectToLogin(pathname)
    else Continue
  }

  /** The intended gate is stricter than the written one, and it agrees with it whenever
      a session cookie is present. */
  lemma GateIntendedRefinesGate(pathname: string, cookies: map<string, string>)
    ensures GateIntended(pathname, cookies) == Continue ==> Gate(pathname, cookies) == Continue
    ensures AuthCookie in cookies || UserCookie in cookies ==>
      GateIntended(pathname, cookies) == Gate(pathname, cookies)
  {
    if IsPublicIntended(pathname) && pathname == "/" {
      assert StartsWith(pathname, PublicPaths[0]);
    }
  }

  /** A string without a given character contains nothing that has it. */
  lemma NotContainsChar(s: string, sub: string, k: nat, c: char)
    requires k < |sub| && sub[k] == c
    requires c !in s
    ensures !Contains(s, sub)
  {
    if Contains(s, sub) {
      var i := ContainsHasOffset(s, sub);
    }
  }

  lemma DashboardHasNoNextSegment()
    ensures !Contains("/dashboard", "/_next")
  {
    NotContainsChar("/dashboard", "/_next", 1, '_');
  }

  lemma DashboardHasNoFavicon()
    ensures !Contains("/dashboard", "/favicon.ico")
  {
    NotContainsChar("/dashboard", "/favicon.ico", 8, '.');
  }

  lemma DashboardHasNoAssetsSegment()
    ensures !Contains("/dashboard", "/assets/")
  {
    NotContainsChar("/dashboard", "/assets/", 5, 't');
  }

  /** "/dashboard" is not one of the framework's files. */
  lemma DashboardIsNoAsset()
    ensures !IsAssetPath("/dashboard")
  {
    DashboardHasNoNextSegment();
    DashboardHasNoFavicon();
    DashboardHasNoAssetsSegment();
  }

  /** No public path other than "/" is a prefix of "/dashboard". */
  lemma DashboardIsNotPublicIntended()
    ensures !IsPublicIntended("/dashboard")
  {
    forall i | 1 <= i < |PublicPaths|
      ensures !StartsWith("/dashboard", PublicPaths[i])
    {
      assert PublicPaths[i][1] != "/dashboard"[1];
    }
  }

  /** Under the intended gate "/dashboard" without a session goes to the login page. */
  lemma DashboardGuardedIntended()
    ensures GateIntended("/dashboard", map[]) == RedirectToLogin("/dashboard")
  {
    DashboardIsNoAsset();
    DashboardIsNotPublicIntended();
  }
}
