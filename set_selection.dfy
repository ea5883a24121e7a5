/**
 * `GET /api/auth/set-superadmin-workspace?workspace_id=N`: the endpoint that
 * records a superadmin's selected workspace in the selection cookie.
 */
module SetSelectionRoute {
  import opened Base
  import opened Text
  import opened AuthTypes
  import opened Cookies
  import opened Selection
  import RouteResponse
  import WorkspaceGuard

  const MAX_AGE: int := 60 * 60 * 24

  /** The JSON body of a route response. */
  datatype Body = OkBody | ErrorBody(error: string)

  datatype RouteResult = RouteResult(status: int, body: Body, cookies: seq<Cookie>)

  /** The attributes of the selection cookie: HTTP-only, secure in production, `lax`, one day, whole site. */
  function SelectionCookieOptions(production: bool): (o: CookieOptions)
    ensures o.Options? && o.httpOnly && o.secure == production && o.sameSite == "lax"
    ensures o.maxAge == 86400 && o.path == "/"
  {
    Options(true, production, "lax", MAX_AGE, "/")
  }

  /**
   * The handler. `param` is the `workspace_id` query parameter, `envPresent`
   * whether both provider settings are set, `user` what `getCurrentUser`
   * resolved to, `production` whether `NODE_ENV` is `production`, and
   * `providerCookies` what the provider's `setAll` wrote while the user was read.
   */
  method Get(param: Option<string>, envPresent: bool, user: Option<User>, production: bool,
             providerCookies: seq<Cookie>) returns (res: RouteResult)
    ensures ParseSelection(param).None? ==> res == RouteResult(400, ErrorBody("Invalid workspace_id"), [])
    ensures ParseSelection(param).Some? && !envPresent ==> res == RouteResult(500, ErrorBody("Misconfigured"), [])
    ensures ParseSelection(param).Some? && envPresent && user.None? ==>
      res == RouteResult(401, ErrorBody("Unauthorized"), [])
    ensures ParseSelection(param).Some? && envPresent && user.Some? && user.value.role != SUPERADMIN ==>
      res == RouteResult(403, ErrorBody("Forbidden"), [])
    ensures res.status == 200 <==>
      ParseSelection(param).Some? && envPresent && user.Some? && user.value.role == SUPERADMIN
    ensures res.status == 200 ==>
      res.body == OkBody && res.cookies == Put(PutAll([], providerCookies),
                            Cookie(COOKIE_NAME, DecimalString(ParseSelection(param).value),
                                   SelectionCookieOptions(production)))
    ensures res.status == 200 ==>
      Lookup(res.cookies, COOKIE_NAME).Some? && ParseSelection(Some(Lookup(res.cookies, COOKIE_NAME).value.value)) == ParseSelection(param)
  {
    var workspaceId := ParseSelection(param);
    if workspaceId.None? {
      return RouteResult(400, ErrorBody("Invalid workspace_id"), []);
    }
    if !envPresent {
      return RouteResult(500, ErrorBody("Misconfigured"), []);
    }
    var response := new CookieJar();
    SetAll(response, providerCookies);
    if user.None? {
      return RouteResult(401, ErrorBody("Unauthorized"), []);
    }
    if user.value.role != SUPERADMIN {
      return RouteResult(403, ErrorBody("Forbidden"), []);
    }
    var value := DecimalString(workspaceId.value);
    ghost var before := response.entries;
    response.Set(COOKIE_NAME, value, SelectionCookieOptions(production));
    PutLookup(before, Cookie(COOKIE_NAME, value, SelectionCookieOptions(production)), COOKIE_NAME);
    CanonicalSelectionRoundTrip(workspaceId.value);
    return RouteResult(200, OkBody, response.entries);
  }

  /**
   * The cookie the endpoint writes opens the workspace application to the
   * superadmin: every guarded path other than the endpoint itself is then
   * decided as for an authorised caller.
   */
  lemma WrittenSelectionAuthorises(param: Option<string>, u: User, path: string, w: Option<bool>)
    requires ParseSelection(param).Some? && u.role == SUPERADMIN
    requires !WorkspaceGuard.Bypassed(path) && path != WorkspaceGuard.SET_SELECTION_PATH
    ensures var cookie := Some(DecimalString(ParseSelection(param).value));
      WorkspaceGuard.Decide(WorkspaceGuard.Facts(path, true, Some(u), cookie, w)) == RouteResponse.Authorised(path)
  {
    CanonicalSelectionRoundTrip(ParseSelection(param).value);
  }

  /** The cookie value is the canonical decimal of the parsed id: `"007"` is stored as `"7"`. */
  lemma LeadingZerosDropped()
    ensures ParseSelection(Some("007")) == Some(7) && DecimalString(7) == "7"
  {
    assert DigitChar(7) == '7';
    LeadingZerosTolerated();
  }

  /** Trailing junk is dropped from the stored value: `"12abc"` is stored as `"12"`. */
  lemma TrailingJunkDropped()
    ensures ParseSelection(Some("12abc")) == Some(12) && DecimalString(12) == "12"
  {
    assert DecimalString(1) == "1";
    assert DigitChar(2) == '2';
    assert DecimalString(12) == DecimalString(1) + [DigitChar(2)];
    TrailingJunkTolerated();
  }

  /** Two requests whose ids parse alike write the same cookie value, so repeating a call changes nothing. */
  lemma SameIdSameCookie(p: Option<string>, q: Option<string>)
    requires ParseSelection(p).Some? && ParseSelection(p) == ParseSelection(q)
    ensures ParseSelection(Some(DecimalString(ParseSelection(p).value))) == ParseSelection(q)
  {
    CanonicalSelectionRoundTrip(ParseSelection(p).value);
  }
}
