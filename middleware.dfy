/** The routing decision of middleware.ts, as a function of the request path,
    whether a session token was found, whether a session cookie is present,
    and whether the app runs in development without a database. */
module Middleware {
  import opened Common

  datatype Request = Request(pathname: string, authenticated: bool, hasSessionCookie: bool)

  datatype Cookie = Cookie(name: string, value: string, maxAge: nat, path: string)

  /** `NextResponse.next()`, possibly setting a cookie, or a redirect. */
  datatype Response = Next(setCookie: Option<Cookie>) | Redirect(location: string, callbackUrl: Option<string>)

  /** The development cookie, valid for one week. */
  const MOCK_TOKEN: Cookie := Cookie("next-auth.mock-token", "mock-token-for-development", 60 * 60 * 24 * 7, "/")

  /** The `authRequiredPaths.some(...)` test for the single prefix "/dashboard". */
  predicate RequiresAuth(path: string) {
    path == "/dashboard" || "/dashboard/" <= path
  }

  predicate IsAuthPage(path: string) {
    path == "/login" || path == "/register"
  }

  function Decide(devWithoutDb: bool, req: Request): (r: Response)
    ensures devWithoutDb ==> r.Next? && (r.setCookie.Some? <==> "/dashboard" <= req.pathname && !req.hasSessionCookie)
    ensures r.Next? && r.setCookie.Some? ==> r.setCookie == Some(MOCK_TOKEN)
    ensures !devWithoutDb ==>
      (r == Redirect("/login", Some(req.pathname)) <==> RequiresAuth(req.pathname) && !req.authenticated)
    ensures !devWithoutDb ==>
      (r == Redirect("/dashboard", None) <==> req.authenticated && IsAuthPage(req.pathname))
    ensures !devWithoutDb ==>
      (r == Next(None) <==> !(RequiresAuth(req.pathname) && !req.authenticated) && !(req.authenticated && IsAuthPage(req.pathname)))
  {
    if devWithoutDb then
      if "/dashboard" <= req.pathname && !req.hasSessionCookie then Next(Some(MOCK_TOKEN)) else Next(None)
    else if RequiresAuth(req.pathname) && !req.authenticated then
      Redirect("/login", Some(req.pathname))
    else if req.authenticated && IsAuthPage(req.pathname) then
      Redirect("/dashboard", None)
    else Next(None)
  }

  /** The two redirects never compete: no page that needs a session is a login or register page. */
  lemma RedirectsExclusive(path: string)
    ensures RequiresAuth(path) ==> !IsAuthPage(path)
  {
    if RequiresAuth(path) && path != "/dashboard" {
      assert path[..|"/dashboard/"|] == "/dashboard/";
    }
  }

  /** Prefix matching respects the segment boundary. */
  lemma DashboardSegmentBoundary()
    ensures RequiresAuth("/dashboard") && RequiresAuth("/dashboard/registrar-actividades")
    ensures !RequiresAuth("/dashboardx")
  {
    assert "/dashboardx"[10] == 'x';
  }

  /** `config.matcher`: "/dashboard/:path*", "/login" and "/register". */
  predicate Matched(path: string) {
    RequiresAuth(path) || IsAuthPage(path)
  }

  /** A request outside the matcher never reaches the middleware. */
  function Handle(devWithoutDb: bool, req: Request): Response {
    if Matched(req.pathname) then Decide(devWithoutDb, req) else Next(None)
  }

  /** With authentication on, the matcher changes nothing: every path it
      excludes would pass through anyway. */
  lemma MatcherIsTransparent(req: Request)
    ensures Handle(false, req) == Decide(false, req)
  {
  }
}
