/** The route gate of src/middleware.ts. For every request it sees the path
    and, when the visitor is signed in, the `type` claim of their session
    token; it either redirects to the sign-in page or lets the request
    through, flagging an employee on a manager-only page with the response
    header `x-unauthorized: true`. Decoding the token and the framework's
    path matcher are outside the model: the token arrives already decoded. */
module Middleware {
  import opened Strings

  /** Pages open to everyone. */
  const PublicRoutes: seq<string> := [
    "/",
    "/auth/signin",
    "/unauthorized",
    "/auth/error",
    "/auth/verify-request",
    "/auth/signout",
    "/auth/callback",
    "/auth/session",
    "/auth/csrf",
    "/auth/providers"]

  /** The keys of the manager-only table; each admits only MANAGER. */
  const EmployeeRestrictedRoutes: seq<string> := ["/dashboard/environmental", "/dashboard/sensors"]

  const SignInPath := "/auth/signin"
  const AuthPrefix := "/auth/"

  /** The decoded session token: only its `type` claim matters here. */
  datatype Token = Token(userType: string)

  /** What the middleware answers: a redirect to a path on the same origin,
      or `NextResponse.next()`, with or without `x-unauthorized: true`. */
  datatype Outcome = Redirect(location: string) | Next(unauthorized: bool)

  /** `routes.some(route => pathname.startsWith(route))` */
  predicate AnyPrefix(routes: seq<string>, pathname: string) {
    if routes == [] then false else StartsWith(pathname, routes[0]) || AnyPrefix(routes[1..], pathname)
  }

  /** `publicRoutes.some(route => pathname === route) || pathname.startsWith("/auth/")` */
  predicate IsPublic(pathname: string) {
    pathname in PublicRoutes || StartsWith(pathname, AuthPrefix)
  }

  /** An employee-restricted page: the path starts with one of the table's keys. */
  predicate IsRestricted(pathname: string) {
    AnyPrefix(EmployeeRestrictedRoutes, pathname)
  }

  /** The decision `middleware(request)` takes. A visitor without a token is
      sent to the sign-in page exactly when the path is not public, and
      otherwise passes untouched; a signed-in visitor is never redirected. */
  function Decide(pathname: string, token: Option<Token>): (r: Outcome)
    ensures r.Redirect? <==> token.None? && !IsPublic(pathname)
    ensures r.Redirect? ==> r.location == SignInPath
    ensures token.None? && IsPublic(pathname) ==> r == Next(false)
  {
    if token.None? && !IsPublic(pathname) then Redirect(SignInPath)
    else if token.Some? then
      if token.value.userType == "MANAGER" then Next(false)
      else if token.value.userType == "EMPLOYEE" then
        if IsRestricted(pathname) then Next(true) else Next(false)
      else Next(false)
    else Next(false)
  }

  /** Eight of the ten listed public routes already fall under the `/auth/`
      prefix, so a path is public exactly when it is `/`, `/unauthorized`,
      or under `/auth/`. */
  lemma PublicIff(pathname: string)
    ensures IsPublic(pathname) <==>
      pathname == "/" || pathname == "/unauthorized" || StartsWith(pathname, AuthPrefix)
  {
    forall r | r in PublicRoutes && r != "/" && r != "/unauthorized"
      ensures StartsWith(r, AuthPrefix)
    {
    }
    if pathname in PublicRoutes && pathname != "/" && pathname != "/unauthorized" {
      assert StartsWith(pathname, AuthPrefix);
    }
  }

  /** The restricted table is prefix matching: any path that starts with
      `/dashboard/environmental` or `/dashboard/sensors` counts, longer ones
      included. */
  lemma RestrictedIff(pathname: string)
    ensures IsRestricted(pathname) <==>
      StartsWith(pathname, "/dashboard/environmental") || StartsWith(pathname, "/dashboard/sensors")
  {
    var rs := EmployeeRestrictedRoutes;
    assert rs[1..] == ["/dashboard/sensors"] && rs[1..][1..] == [];
    assert AnyPrefix(rs[1..][1..], pathname) == false;
    assert AnyPrefix(rs[1..], pathname) == StartsWith(pathname, "/dashboard/sensors");
    assert AnyPrefix(rs, pathname) ==
      (StartsWith(pathname, "/dashboard/environmental") || AnyPrefix(rs[1..], pathname));
  }

  /** The header is set exactly for an EMPLOYEE on a restricted path; a
      MANAGER, an employee elsewhere, and any other token type pass without
      it. */
  lemma UnauthorizedIff(pathname: string, token: Option<Token>)
    ensures Decide(pathname, token) == Next(true) <==>
      token == Some(Token("EMPLOYEE")) &&
      (StartsWith(pathname, "/dashboard/environmental") || StartsWith(pathname, "/dashboard/sensors"))
    ensures token == Some(Token("MANAGER")) ==> Decide(pathname, token) == Next(false)
    ensures token.Some? && token.value.userType != "EMPLOYEE" ==> Decide(pathname, token) == Next(false)
  {
    RestrictedIff(pathname);
  }

  /** The historical page under the environmental dashboard is flagged for
      employees too, while the sensors page, which lives at `/sensors`, is
      not covered by the `/dashboard/sensors` key. */
  lemma PrefixExamples()
    ensures Decide("/dashboard/environmental/historical", Some(Token("EMPLOYEE"))) == Next(true)
    ensures Decide("/sensors", Some(Token("EMPLOYEE"))) == Next(false)
    ensures Decide("/sensors", None) == Redirect(SignInPath)
  {
    RestrictedIff("/dashboard/environmental/historical");
    RestrictedIff("/sensors");
    PublicIff("/sensors");
    assert "/sensors"[..|AuthPrefix|] != AuthPrefix by {
      assert "/sensors"[1] != AuthPrefix[1];
    }
  }
}
