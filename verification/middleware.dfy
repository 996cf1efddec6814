/** The `/admin` guard of `src/middleware.ts`, as a decision on the request
    path, the `admin_token` cookie and the outcome of `jwtVerify` (an oracle). */
module AdminMiddleware {
  import opened Wrappers

  datatype Decision =
    | Next                              // NextResponse.next()
    | Redirect(to: string)              // NextResponse.redirect
    | RedirectClearingToken(to: string) // redirect and delete the admin_token cookie

  predicate StartsWith(s: string, prefix: string) {
    |prefix| <= |s| && s[..|prefix|] == prefix
  }

  const AdminRoot: string := "/admin"
  const LoginPage: string := "/admin/login"

  function Middleware(path: string, token: Option<string>, tokenValid: string -> bool)
    : (d: Decision)
    ensures !StartsWith(path, "/admin") ==> d == Next
    ensures path == "/admin/login" ==>
              d == (if Truthy(token) && tokenValid(token.value) then Redirect("/admin") else Next)
    ensures StartsWith(path, "/admin") && path != "/admin/login" ==>
              d == (if !Truthy(token) then Redirect("/admin/login")
                    else if tokenValid(token.value) then Next
                    else RedirectClearingToken("/admin/login"))
  {
    if StartsWith(path, AdminRoot) then
      if path == LoginPage then
        if Truthy(token) && tokenValid(token.value) then Redirect(AdminRoot) else Next
      else if !Truthy(token) then Redirect(LoginPage)
      else if tokenValid(token.value) then Next
      else RedirectClearingToken(LoginPage)
    else Next
  }

  /** A protected admin page is served only with a valid token, and the token
      is cleared only when one was presented and rejected. */
  lemma AdminPagesNeedValidToken(path: string, token: Option<string>, tokenValid: string -> bool)
    requires StartsWith(path, "/admin") && path != "/admin/login"
    ensures Middleware(path, token, tokenValid) == Next <==> Truthy(token) && tokenValid(token.value)
    ensures Middleware(path, token, tokenValid).RedirectClearingToken? <==>
              Truthy(token) && !tokenValid(token.value)
  {
  }

  /** The login page is never blocked: it either shows or, for an already
      valid session, sends the administrator to the dashboard. */
  lemma LoginNeverBlocked(token: Option<string>, tokenValid: string -> bool)
    ensures Middleware("/admin/login", token, tokenValid) in {Next, Redirect("/admin")}
  {
  }

  /** `config.matcher: "/admin/:path*"`: the middleware runs only for
      `/admin` itself and the paths below it. */
  predicate Matched(path: string) {
    path == AdminRoot || StartsWith(path, AdminRoot + "/")
  }

  /** What a request meets: the guard on matched paths, nothing elsewhere. */
  function Route(path: string, token: Option<string>, tokenValid: string -> bool)
    : (d: Decision)
    ensures !Matched(path) ==> d == Next
    ensures Matched(path) ==> d == Middleware(path, token, tokenValid)
  {
    if Matched(path) then Middleware(path, token, tokenValid) else Next
  }

  /** Every page the matcher routes to the guard other than the login page
      is served only with a valid token; a path that merely starts with
      `/admin`, such as `/administrator`, never reaches the guard. */
  lemma MatchedPagesNeedValidToken(path: string, token: Option<string>, tokenValid: string -> bool)
    requires Matched(path) && path != LoginPage
    ensures Route(path, token, tokenValid) == Next <==> Truthy(token) && tokenValid(token.value)
    ensures Route("/administrator", token, tokenValid) == Next
  {
    assert StartsWith(path, "/admin") by {
      if path != AdminRoot {
        assert path[..|AdminRoot|] == (path[..|AdminRoot| + 1])[..|AdminRoot|];
      }
    }
    assert !Matched("/administrator") by {
      assert "/administrator"[6] == 'i';
    }
  }
}
