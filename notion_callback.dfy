/**
 * The Notion OAuth callback: the ladder of early redirects (provider
 * error, missing code, undecodable or expired state), then the token
 * exchange, whose success stores the token and workspace cookies.
 *
 * The decoded state, the clock and the outcome of the exchange are
 * parameters.
 */
module NotionCallback {
  import opened Common
  import opened Http

  const AccessTokenCookie: string := "notion_access_token"
  const WorkspaceInfoCookie: string := "notion_workspace_info"
  const DefaultReturnUrl: string := "/settings"
  /** Ten minutes, in milliseconds. */
  const StateLifetime: int := 600000

  /** The query parameters; an empty value is falsy and counts as absent. */
  datatype CallbackParams = CallbackParams(code: Option<string>, state: Option<string>, error: Option<string>)

  /**
   * The result of decoding a non-empty `state`: not decodable, or an object
   * whose `returnUrl` and `timestamp` may each be missing.
   */
  datatype StateDecoding =
    | Undecodable
    | Decoded(returnUrl: Option<string>, timestamp: Option<int>)

  /** The token exchange and database fetch: failed, or the access token and the workspace record to store. */
  datatype Exchange =
    | ExchangeFailed
    | Exchanged(accessToken: string, workspaceInfo: string)

  datatype Outcome = Outcome(location: string, cookies: seq<CookieOp>)

  predicate Truthy(s: Option<string>)
  {
    s.Some? && s.value != ""
  }

  function ErrorRedirect(code: string): string
  {
    "/settings?error=" + code
  }

  /** A missing `returnUrl` is rendered by the template literal as `undefined`. */
  function Render(s: Option<string>): string
  {
    if s.Some? then s.value else "undefined"
  }

  /**
   * Too old: more than ten minutes between the state's timestamp and now.
   * A missing timestamp makes the difference `NaN`, which is never greater.
   */
  predicate Expired(decoded: StateDecoding, now: int)
    requires decoded.Decoded?
  {
    decoded.timestamp.Some? && now - decoded.timestamp.value > StateLifetime
  }

  /** Where the flow returns to: the decoded `returnUrl`, or the settings page when no state was sent. */
  function ReturnUrl(params: CallbackParams, decoded: StateDecoding): string
  {
    if Truthy(params.state) && decoded.Decoded? then Render(decoded.returnUrl) else DefaultReturnUrl
  }

  /** The response the callback sends, as a value. */
  function CallbackOutcome(params: CallbackParams, decoded: StateDecoding, now: int, exchange: Exchange): (r: Outcome)
    ensures Truthy(params.error) ==> r == Outcome(ErrorRedirect("oauth_error"), [])
    ensures !Truthy(params.error) && !Truthy(params.code) ==> r == Outcome(ErrorRedirect("missing_code"), [])
    ensures !Truthy(params.error) && Truthy(params.code) && Truthy(params.state) && decoded.Undecodable? ==>
      r == Outcome(ErrorRedirect("invalid_state"), [])
    ensures !Truthy(params.error) && Truthy(params.code) && Truthy(params.state) && decoded.Decoded?
            && Expired(decoded, now) ==>
      r == Outcome(ErrorRedirect("expired_state"), [])
    ensures r.cookies != [] <==>
      !Truthy(params.error) && Truthy(params.code) && exchange.Exchanged?
      && (Truthy(params.state) ==> decoded.Decoded? && !Expired(decoded, now))
    ensures r.cookies != [] ==>
      r.location == ReturnUrl(params, decoded) + "?connected=true"
      && r.cookies == [SetCookie(AccessTokenCookie, exchange.accessToken, OneYear),
                       SetCookie(WorkspaceInfoCookie, exchange.workspaceInfo, OneYear)]
    ensures r.cookies == [] && !Truthy(params.error) && Truthy(params.code)
            && (Truthy(params.state) ==> decoded.Decoded? && !Expired(decoded, now)) ==>
      r.location == ErrorRedirect("token_exchange_failed")
  {
    if Truthy(params.error) then Outcome(ErrorRedirect("oauth_error"), [])
    else if !Truthy(params.code) then Outcome(ErrorRedirect("missing_code"), [])
    else if Truthy(params.state) && decoded.Undecodable? then Outcome(ErrorRedirect("invalid_state"), [])
    else if Truthy(params.state) && Expired(decoded, now) then Outcome(ErrorRedirect("expired_state"), [])
    else if exchange.ExchangeFailed? then Outcome(ErrorRedirect("token_exchange_failed"), [])
    else
      Outcome(ReturnUrl(params, decoded) + "?connected=true",
              [SetCookie(AccessTokenCookie, exchange.accessToken, OneYear),
               SetCookie(WorkspaceInfoCookie, exchange.workspaceInfo, OneYear)])
  }

  /** A state exactly ten minutes old is still accepted; one a millisecond older is not. */
  lemma ExpiryBoundary(returnUrl: Option<string>, now: int)
    ensures !Expired(Decoded(returnUrl, Some(now - StateLifetime)), now)
    ensures Expired(Decoded(returnUrl, Some(now - StateLifetime - 1)), now)
  {
  }

  /** A decodable state without a timestamp never expires, however late the callback comes. */
  lemma MissingTimestampNeverExpires(params: CallbackParams, returnUrl: Option<string>, now: int, exchange: Exchange)
    requires !Truthy(params.error) && Truthy(params.code) && Truthy(params.state) && exchange.Exchanged?
    ensures CallbackOutcome(params, Decoded(returnUrl, None), now, exchange).location == Render(returnUrl) + "?connected=true"
  {
  }

  /** After a successful callback the browser holds both cookies; after any other outcome its cookies are unchanged. */
  lemma CallbackCookies(params: CallbackParams, decoded: StateDecoding, now: int, exchange: Exchange, jar: map<string, string>)
    ensures var r := CallbackOutcome(params, decoded, now, exchange);
      var after := ApplyCookies(jar, r.cookies);
      (r.cookies != [] ==> after == jar[AccessTokenCookie := exchange.accessToken][WorkspaceInfoCookie := exchange.workspaceInfo])
      && (r.cookies == [] ==> after == jar)
  {
    var r := CallbackOutcome(params, decoded, now, exchange);
    if r.cookies != [] {
      var ops := r.cookies;
      assert ops[..|ops| - 1] == [ops[0]] && [ops[0]][..0] == [];
      assert ApplyCookies(jar, [ops[0]]) == ApplyCookies(jar, [])[AccessTokenCookie := exchange.accessToken];
      assert ApplyCookies(jar, ops) == ApplyCookies(jar, [ops[0]])[WorkspaceInfoCookie := exchange.workspaceInfo];
    }
  }

  /** `GET /api/auth/notion/callback`, building the redirect and setting the cookies on it. */
  method Get(params: CallbackParams, decoded: StateDecoding, now: int, exchange: Exchange) returns (response: Response<bool>)
    ensures fresh(response)
    ensures response.location == Some(CallbackOutcome(params, decoded, now, exchange).location)
    ensures response.cookieOps == CallbackOutcome(params, decoded, now, exchange).cookies
    ensures response.status == TemporaryRedirect && response.body == None
  {
    if Truthy(params.error) {
      response := new Response.Redirect(ErrorRedirect("oauth_error"));
      return;
    }
    if !Truthy(params.code) {
      response := new Response.Redirect(ErrorRedirect("missing_code"));
      return;
    }
    var returnUrl := Some(DefaultReturnUrl);
    if Truthy(params.state) {
      if decoded.Undecodable? {
        response := new Response.Redirect(ErrorRedirect("invalid_state"));
        return;
      }
      returnUrl := decoded.returnUrl;
      if decoded.timestamp.Some? && now - decoded.timestamp.value > StateLifetime {
        response := new Response.Redirect(ErrorRedirect("expired_state"));
        return;
      }
    }
    if exchange.ExchangeFailed? {
      response := new Response.Redirect(ErrorRedirect("token_exchange_failed"));
      return;
    }
    response := new Response.Redirect(Render(returnUrl) + "?connected=true");
    response.Set(AccessTokenCookie, exchange.accessToken, OneYear);
    response.Set(WorkspaceInfoCookie, exchange.workspaceInfo, OneYear);
  }
}
