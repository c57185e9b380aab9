// The request guard run before every page: signed-out visitors of the
// dashboard, trust and notice pages are sent to the login page, and
// signed-in visitors of the login and register pages to the dashboard.

module Middleware {

  const LoginPath := "/login"
  const RegisterPath := "/register"
  const DashboardPath := "/dashboard"
  const TrustsPath := "/trusts"
  const NoticesPath := "/notices"

  /** `s.startsWith(prefix)`. */
  predicate StartsWith(s: string, prefix: string)
  {
    |prefix| <= |s| && s[..|prefix|] == prefix
  }

  /** A prefix test, so `/trusts/42` and also `/trustsfoo` are protected. */
  predicate IsProtectedRoute(path: string)
  {
    StartsWith(path, DashboardPath) || StartsWith(path, TrustsPath) || StartsWith(path, NoticesPath)
  }

  /** An exact test: `/login/` is not an auth route. */
  predicate IsAuthRoute(path: string)
  {
    path == LoginPath || path == RegisterPath
  }

  /** Let the request through (with the refreshed session), or redirect
      it to a path of the same origin. */
  datatype Decision = PassThrough | Redirect(location: string)

  function RouteDecision(path: string, signedIn: bool): (d: Decision)
    ensures d == Redirect(LoginPath) <==> IsProtectedRoute(path) && !signedIn
    ensures d == Redirect(DashboardPath) <==> IsAuthRoute(path) && signedIn
    ensures d.PassThrough? <==> !(IsProtectedRoute(path) && !signedIn) && !(IsAuthRoute(path) && signedIn)
  {
    if IsProtectedRoute(path) && !signedIn then Redirect(LoginPath)
    else if IsAuthRoute(path) && signedIn then Redirect(DashboardPath)
    else PassThrough
  }

  lemma DiffersAt(s: string, prefix: string, i: nat)
    requires i < |prefix| && i < |s| && s[i] != prefix[i]
    ensures !StartsWith(s, prefix)
  {
    if |prefix| <= |s| {
      assert s[..|prefix|][i] != prefix[i];
    }
  }

  /** No path is both protected and an auth route, so the two checks never
      compete. */
  lemma ProtectedAndAuthDisjoint(path: string)
    ensures !(IsProtectedRoute(path) && IsAuthRoute(path))
  {
    if IsAuthRoute(path) {
      DiffersAt(path, DashboardPath, 1);
      DiffersAt(path, TrustsPath, 1);
      DiffersAt(path, NoticesPath, 1);
    }
  }

  /** A redirect lands on a page the guard lets through for the same
      visitor, so the guard never redirects twice in a row. */
  lemma RedirectTargetPassesThrough(path: string, signedIn: bool)
    requires RouteDecision(path, signedIn).Redirect?
    ensures RouteDecision(RouteDecision(path, signedIn).location, signedIn) == PassThrough
  {
    ProtectedAndAuthDisjoint(LoginPath);
    ProtectedAndAuthDisjoint(DashboardPath);
    assert StartsWith(DashboardPath, DashboardPath);
  }

  /** Protection is by prefix: every extension of a protected path is
      protected, and a signed-out visitor of it is sent to the login page. */
  lemma ProtectionExtends(path: string, rest: string)
    requires IsProtectedRoute(path)
    ensures IsProtectedRoute(path + rest)
    ensures RouteDecision(path + rest, false) == Redirect(LoginPath)
  {
    var p := path + rest;
    assert p[..|path|] == path;
    if StartsWith(path, DashboardPath) {
      assert p[..|DashboardPath|] == path[..|DashboardPath|];
    } else if StartsWith(path, TrustsPath) {
      assert p[..|TrustsPath|] == path[..|TrustsPath|];
    } else {
      assert p[..|NoticesPath|] == path[..|NoticesPath|];
    }
  }
}
