/**
 * Route access: which paths are public, where a request is redirected,
 * and the `authorized` callback the authentication wrapper consults
 * before the middleware runs. The session token is reduced to whether
 * one is present.
 */
module Middleware {
  import opened Common

  const SignIn: string := "/auth/signin"

  const PublicRoutes: seq<string> := [SignIn, "/auth/register", "/auth/forgot-password", "/auth/error"]

  /** A path is public when it starts with one of the public routes. */
  predicate IsPublicRoute(pathname: string)
  {
    exists i :: 0 <= i < |PublicRoutes| && PublicRoutes[i] <= pathname
  }

  /** Matching is by prefix: anything under a public route is public too. */
  lemma PrefixMatching(pathname: string, suffix: string)
    requires IsPublicRoute(pathname)
    ensures IsPublicRoute(pathname + suffix)
  {
    var i :| 0 <= i < |PublicRoutes| && PublicRoutes[i] <= pathname;
    assert PublicRoutes[i] <= pathname + suffix;
  }

  datatype Outcome =
    | Redirect(location: string, callbackUrl: Option<string>)
    | Next

  /**
   * A signed-in visitor is sent away from the public pages to '/'; a
   * visitor without a session is sent from any other page but '/' to the
   * sign-in page, which is told where to return; everyone else passes.
   */
  function Middleware(pathname: string, hasToken: bool): (r: Outcome)
    ensures hasToken && IsPublicRoute(pathname) <==> r == Redirect("/", None)
    ensures !hasToken && !IsPublicRoute(pathname) && pathname != "/" <==> r == Redirect(SignIn, Some(pathname))
    ensures r == Next <==> (hasToken && !IsPublicRoute(pathname)) || (!hasToken && (IsPublicRoute(pathname) || pathname == "/"))
  {
    var isPublicRoute := IsPublicRoute(pathname);
    if hasToken && isPublicRoute then Redirect("/", None)
    else if !hasToken && !isPublicRoute && pathname != "/" then Redirect(SignIn, Some(pathname))
    else Next
  }

  /** The wrapper lets a request through when the path is public, is '/', or a session exists. */
  function Authorized(pathname: string, hasToken: bool): (r: bool)
    ensures r <==> IsPublicRoute(pathname) || pathname == "/" || hasToken
  {
    if IsPublicRoute(pathname) then true
    else if pathname == "/" then true
    else hasToken
  }

  /** Once the wrapper has let a request through, the middleware never sends it to sign in. */
  lemma AuthorizedNeverRedirectsToSignIn(pathname: string, hasToken: bool)
    requires Authorized(pathname, hasToken)
    ensures !Middleware(pathname, hasToken).Redirect? || Middleware(pathname, hasToken).location != SignIn
  {
  }

  /** A public page, or '/', is reachable without a session; a signed-in visitor can reach every non-public page. */
  lemma AccessSummary(pathname: string)
    ensures IsPublicRoute(pathname) || pathname == "/" ==> Middleware(pathname, false) == Next
    ensures !IsPublicRoute(pathname) ==> Middleware(pathname, true) == Next
  {
  }

  /** The sign-in page is public, and so is a page below it. */
  lemma SignInIsPublic()
    ensures IsPublicRoute(SignIn)
    ensures IsPublicRoute(SignIn + "?error=CredentialsSignin")
    ensures !IsPublicRoute("/")
  {
    assert PublicRoutes[0] <= SignIn;
    PrefixMatching(SignIn, "?error=CredentialsSignin");
    forall i | 0 <= i < |PublicRoutes| ensures !(PublicRoutes[i] <= "/") {
      assert |PublicRoutes[i]| > 1;
    }
  }
}
