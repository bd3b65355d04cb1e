/** The front end's route guard: which paths need a signed-in user, which
    need an administrator, and where a request that fails the check is sent.
    `verifyToken` is an oracle answering with the token's role, or `None`
    when the token does not verify or its payload is malformed. */
module Middleware {
  import opened Common

  const ProtectedRoutes := ["/dashboard", "/chat", "/documents", "/terms", "/clauses", "/risk", "/sec",
                            "/draft-email", "/saved", "/settings"]
  const AdminRoutes := ["/admin", "/approvals"]

  /** `routes.some(route => pathname.startsWith(route))`. */
  function AnyPrefix(routes: seq<string>, path: string): (r: bool)
    ensures r <==> exists k :: 0 <= k < |routes| && StartsWith(path, routes[k])
    decreases |routes|
  {
    if |routes| == 0 then false
    else StartsWith(path, routes[0]) || AnyPrefix(routes[1..], path)
  }

  predicate IsProtected(path: string)
  {
    AnyPrefix(ProtectedRoutes, path)
  }

  predicate IsAdminRoute(path: string)
  {
    AnyPrefix(AdminRoutes, path)
  }

  datatype Decision = Next | RedirectLogin | RedirectDashboard

  /** `middleware(request)`: the `auth-token` cookie (`None` when absent) and
      the verifier decide the guarded paths; every other path passes. */
  function Decide(path: string, token: Option<string>, verifyToken: string -> Option<string>): Decision
  {
    if !(IsProtected(path) || IsAdminRoute(path)) then Next
    else if token.None? || token.value == "" then RedirectLogin
    else match verifyToken(token.value)
      case None => RedirectLogin
      case Some(role) => if IsAdminRoute(path) && role != "admin" then RedirectDashboard else Next
  }

  /** A path outside both lists passes through whatever the cookie holds,
      without the verifier being consulted. */
  lemma PublicPassesThrough(path: string, token: Option<string>, v1: string -> Option<string>,
                            v2: string -> Option<string>)
    requires !IsProtected(path) && !IsAdminRoute(path)
    ensures Decide(path, token, v1) == Next
    ensures Decide(path, token, v1) == Decide(path, token, v2)
  {
  }

  /** On a guarded path, a missing or empty cookie, or a token the verifier
      rejects, sends the request to `/login`. */
  lemma UnauthenticatedToLogin(path: string, token: Option<string>, verifyToken: string -> Option<string>)
    requires IsProtected(path) || IsAdminRoute(path)
    requires token.None? || token.value == "" || verifyToken(token.value).None?
    ensures Decide(path, token, verifyToken) == RedirectLogin
  {
  }

  /** With a verified token: an administrator passes everywhere; any other
      role is sent to `/dashboard` from an admin path and passes a protected
      one. */
  lemma RoleDecides(path: string, token: string, verifyToken: string -> Option<string>)
    requires token != "" && verifyToken(token).Some?
    ensures verifyToken(token).value == "admin" ==> Decide(path, Some(token), verifyToken) == Next
    ensures IsAdminRoute(path) && verifyToken(token).value != "admin" ==>
      Decide(path, Some(token), verifyToken) == RedirectDashboard
    ensures IsProtected(path) && !IsAdminRoute(path) ==> Decide(path, Some(token), verifyToken) == Next
  {
  }

  /** The redirect to `/dashboard` happens exactly on admin paths for a
      verified user who is not an administrator. */
  lemma DashboardRedirectExactly(path: string, token: Option<string>, verifyToken: string -> Option<string>)
    ensures Decide(path, token, verifyToken) == RedirectDashboard <==>
      IsAdminRoute(path) && token.Some? && token.value != "" && verifyToken(token.value).Some?
      && verifyToken(token.value).value != "admin"
  {
  }

  /** The lists are matched by prefix, not by path segment: `/security` and
      `/chatbot` are guarded like `/sec` and `/chat`, and `/administrator` is
      an admin path; `/`, `/login` and `/legal` are public. */
  lemma PrefixNotSegment()
    ensures IsProtected("/security") && IsProtected("/chatbot") && IsProtected("/sec/filings")
    ensures IsAdminRoute("/administrator") && IsAdminRoute("/approvals/7")
    ensures !IsProtected("/") && !IsAdminRoute("/")
    ensures !IsProtected("/login") && !IsAdminRoute("/login")
    ensures !IsProtected("/legal") && !IsAdminRoute("/legal")
  {
    assert StartsWith("/security", "/sec");
    assert StartsWith("/chatbot", "/chat");
    assert StartsWith("/sec/filings", "/sec");
    assert StartsWith("/administrator", "/admin");
    assert StartsWith("/approvals/7", "/approvals");
    NotGuarded("/");
    NotGuarded("/login");
    NotGuarded("/legal");
  }

  /** The paths the matcher keeps away from the guard (`api`, the static
      files, the favicon) would pass the guard anyway. */
  lemma MatcherExclusionsPass()
    ensures !IsProtected("/api/chat") && !IsAdminRoute("/api/chat")
    ensures !IsProtected("/_next/static/app.js") && !IsAdminRoute("/_next/static/app.js")
    ensures !IsProtected("/_next/image") && !IsAdminRoute("/_next/image")
    ensures !IsProtected("/favicon.ico") && !IsAdminRoute("/favicon.ico")
  {
    ApiNotGuarded("/api/chat");
    NotGuarded("/_next/static/app.js");
    NotGuarded("/_next/image");
    NotGuarded("/favicon.ico");
  }

  /** No listed route is a prefix of a path under `/api`: API paths are public. */
  lemma ApiNotGuarded(path: string)
    requires StartsWith(path, "/api")
    ensures !IsProtected(path) && !IsAdminRoute(path)
  {
    assert path[1] == 'a' && path[2] == 'p' && path[3] == 'i';
    forall k | 0 <= k < |ProtectedRoutes|
      ensures !StartsWith(path, ProtectedRoutes[k])
    {
      assert ProtectedRoutes[k][1] != 'a';
    }
    forall k | 0 <= k < |AdminRoutes|
      ensures !StartsWith(path, AdminRoutes[k])
    {
      assert AdminRoutes[k][2] != 'p' || AdminRoutes[k][3] != 'i';
    }
  }

  /** A path whose second character starts no listed route is public. */
  lemma NotGuarded(path: string)
    requires |path| >= 1 && path[0] == '/'
    requires |path| == 1 || path[1] !in {'d', 'c', 't', 'r', 's', 'a'}
    ensures !IsProtected(path) && !IsAdminRoute(path)
  {
    forall k | 0 <= k < |ProtectedRoutes|
      ensures !StartsWith(path, ProtectedRoutes[k])
    {
      assert |ProtectedRoutes[k]| >= 2 && ProtectedRoutes[k][1] in {'d', 'c', 't', 'r', 's'};
      assert |path| < 2 || path[1] != ProtectedRoutes[k][1];
    }
    forall k | 0 <= k < |AdminRoutes|
      ensures !StartsWith(path, AdminRoutes[k])
    {
      assert |AdminRoutes[k]| >= 2 && AdminRoutes[k][1] == 'a';
      assert |path| < 2 || path[1] != AdminRoutes[k][1];
    }
  }
}
